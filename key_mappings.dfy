/*
 * Logical keys and the per-platform key-code tables (common/keyMappings.h,
 * common/keyMappings.cpp). Each table is modelled as the lookup of the
 * constant std::map it builds: a function from platform code to logical
 * key. Its correctness facts (injective, which keys it covers) are proved
 * through a ghost inverse, one range of codes or keys at a time.
 */
module KeyMappings {

  import opened Defines

  /** eOS: the operating system a keyboard packet names. */
  const WIN_OS: int := 0
  const MAC_OS: int := 1
  const LINUX_OS: int := 2

  datatype OS = WinOS | MacOS | LinuxOS

  function OSValue(os: OS): int {
    match os
    case WinOS => WIN_OS
    case MacOS => MAC_OS
    case LinuxOS => LINUX_OS
  }

  /** The enumerator with a given underlying value, if any. */
  function OSOf(v: int): (r: Option<OS>)
    ensures r.Some? ==> OSValue(r.value) == v
  {
    if v == WIN_OS then Some(WinOS)
    else if v == MAC_OS then Some(MacOS)
    else if v == LINUX_OS then Some(LinuxOS)
    else None
  }

  /** eOS has exactly the three values 0, 1 and 2, one per enumerator. */
  lemma OSValues(v: int, os: OS)
    ensures OSOf(v).Some? <==> 0 <= v <= 2
    ensures OSOf(OSValue(os)) == Some(os)
  {
  }

  /** eKey: 85 logical keys numbered in declaration order. */
  const KEY_COUNT: nat := 85
  type Key = k: int | 0 <= k < KEY_COUNT

  const KEY_A: Key := 0
  const KEY_B: Key := 1
  const KEY_C: Key := 2
  const KEY_D: Key := 3
  const KEY_E: Key := 4
  const KEY_F: Key := 5
  const KEY_G: Key := 6
  const KEY_H: Key := 7
  const KEY_I: Key := 8
  const KEY_J: Key := 9
  const KEY_K: Key := 10
  const KEY_L: Key := 11
  const KEY_M: Key := 12
  const KEY_N: Key := 13
  const KEY_O: Key := 14
  const KEY_P: Key := 15
  const KEY_Q: Key := 16
  const KEY_R: Key := 17
  const KEY_S: Key := 18
  const KEY_T: Key := 19
  const KEY_U: Key := 20
  const KEY_V: Key := 21
  const KEY_W: Key := 22
  const KEY_X: Key := 23
  const KEY_Y: Key := 24
  const KEY_Z: Key := 25
  const KEY_0: Key := 26
  const KEY_1: Key := 27
  const KEY_2: Key := 28
  const KEY_3: Key := 29
  const KEY_4: Key := 30
  const KEY_5: Key := 31
  const KEY_6: Key := 32
  const KEY_7: Key := 33
  const KEY_8: Key := 34
  const KEY_9: Key := 35
  const KEY_F1: Key := 36
  const KEY_F2: Key := 37
  const KEY_F3: Key := 38
  const KEY_F4: Key := 39
  const KEY_F5: Key := 40
  const KEY_F6: Key := 41
  const KEY_F7: Key := 42
  const KEY_F8: Key := 43
  const KEY_F9: Key := 44
  const KEY_F10: Key := 45
  const KEY_F11: Key := 46
  const KEY_F12: Key := 47
  const KEY_LSHIFT: Key := 48
  const KEY_RSHIFT: Key := 49
  const KEY_LCONTROL: Key := 50
  const KEY_RCONTROL: Key := 51
  const KEY_LALT: Key := 52
  const KEY_RALT: Key := 53
  const KEY_CAPSLOCK: Key := 54
  const KEY_MENU: Key := 55
  const KEY_ENTER: Key := 56
  const KEY_SPACE: Key := 57
  const KEY_TAB: Key := 58
  const KEY_BACKSPACE: Key := 59
  const KEY_ESCAPE: Key := 60
  const KEY_LEFT: Key := 61
  const KEY_RIGHT: Key := 62
  const KEY_UP: Key := 63
  const KEY_DOWN: Key := 64
  const KEY_NUMPAD0: Key := 65
  const KEY_NUMPAD1: Key := 66
  const KEY_NUMPAD2: Key := 67
  const KEY_NUMPAD3: Key := 68
  const KEY_NUMPAD4: Key := 69
  const KEY_NUMPAD5: Key := 70
  const KEY_NUMPAD6: Key := 71
  const KEY_NUMPAD7: Key := 72
  const KEY_NUMPAD8: Key := 73
  const KEY_NUMPAD9: Key := 74
  const KEY_NUMLOCK: Key := 75
  const KEY_MULTIPLY: Key := 76
  const KEY_ADD: Key := 77
  const KEY_SUBTRACT: Key := 78
  const KEY_DECIMAL: Key := 79
  const KEY_DIVIDE: Key := 80
  const KEY_LWIN: Key := 81
  const KEY_RWIN: Key := 82
  const KEY_LCLICK: Key := 83
  const KEY_RCLICK: Key := 84

  /** Virtual-key codes of Windows (keyMappings.cpp:4-39), platform key code to logical key. The
      entries are tested in source order and the first match wins, as when
      std::map is built from an initializer list with repeated keys. */
  function WindowsKeyMap(code: int): (r: Option<Key>)
    ensures r.Some? ==> r.value < KEY_LCLICK
  {
    // Alphabet
    if code == 65 then Some(KEY_A) else
    if code == 66 then Some(KEY_B) else
    if code == 67 then Some(KEY_C) else
    if code == 68 then Some(KEY_D) else
    if code == 69 then Some(KEY_E) else
    if code == 70 then Some(KEY_F) else
    if code == 71 then Some(KEY_G) else
    if code == 72 then Some(KEY_H) else
    if code == 73 then Some(KEY_I) else
    if code == 74 then Some(KEY_J) else
    if code == 75 then Some(KEY_K) else
    if code == 76 then Some(KEY_L) else
    if code == 77 then Some(KEY_M) else
    if code == 78 then Some(KEY_N) else
    if code == 79 then Some(KEY_O) else
    if code == 80 then Some(KEY_P) else
    if code == 81 then Some(KEY_Q) else
    if code == 82 then Some(KEY_R) else
    if code == 83 then Some(KEY_S) else
    if code == 84 then Some(KEY_T) else
    if code == 85 then Some(KEY_U) else
    if code == 86 then Some(KEY_V) else
    if code == 87 then Some(KEY_W) else
    if code == 88 then Some(KEY_X) else
    if code == 89 then Some(KEY_Y) else
    if code == 90 then Some(KEY_Z) else
    // Numbers
    if code == 48 then Some(KEY_0) else
    if code == 49 then Some(KEY_1) else
    if code == 50 then Some(KEY_2) else
    if code == 51 then Some(KEY_3) else
    if code == 52 then Some(KEY_4) else
    if code == 53 then Some(KEY_5) else
    if code == 54 then Some(KEY_6) else
    if code == 55 then Some(KEY_7) else
    if code == 56 then Some(KEY_8) else
    if code == 57 then Some(KEY_9) else
    // Function Keys
    if code == 112 then Some(KEY_F1) else
    if code == 113 then Some(KEY_F2) else
    if code == 114 then Some(KEY_F3) else
    if code == 115 then Some(KEY_F4) else
    if code == 116 then Some(KEY_F5) else
    if code == 117 then Some(KEY_F6) else
    if code == 118 then Some(KEY_F7) else
    if code == 119 then Some(KEY_F8) else
    if code == 120 then Some(KEY_F9) else
    if code == 121 then Some(KEY_F10) else
    if code == 122 then Some(KEY_F11) else
    if code == 123 then Some(KEY_F12) else
    // Control Keys
    if code == 13 then Some(KEY_ENTER) else
    if code == 32 then Some(KEY_SPACE) else
    if code == 9 then Some(KEY_TAB) else
    if code == 8 then Some(KEY_BACKSPACE) else
    if code == 27 then Some(KEY_ESCAPE) else
    if code == 160 then Some(KEY_LSHIFT) else
    if code == 161 then Some(KEY_RSHIFT) else
    if code == 162 then Some(KEY_LCONTROL) else
    if code == 163 then Some(KEY_RCONTROL) else
    if code == 164 then Some(KEY_LALT) else
    if code == 165 then Some(KEY_RALT) else
    if code == 20 then Some(KEY_CAPSLOCK) else
    if code == 91 then Some(KEY_LWIN) else
    if code == 92 then Some(KEY_RWIN) else
    if code == 93 then Some(KEY_MENU) else
    // Numpad Keys
    if code == 96 then Some(KEY_NUMPAD0) else
    if code == 97 then Some(KEY_NUMPAD1) else
    if code == 98 then Some(KEY_NUMPAD2) else
    if code == 99 then Some(KEY_NUMPAD3) else
    if code == 100 then Some(KEY_NUMPAD4) else
    if code == 101 then Some(KEY_NUMPAD5) else
    if code == 102 then Some(KEY_NUMPAD6) else
    if code == 103 then Some(KEY_NUMPAD7) else
    if code == 104 then Some(KEY_NUMPAD8) else
    if code == 105 then Some(KEY_NUMPAD9) else
    if code == 106 then Some(KEY_MULTIPLY) else
    if code == 107 then Some(KEY_ADD) else
    if code == 109 then Some(KEY_SUBTRACT) else
    if code == 110 then Some(KEY_DECIMAL) else
    if code == 111 then Some(KEY_DIVIDE) else
    if code == 144 then Some(KEY_NUMLOCK) else
    // Arrow Keys
    if code == 37 then Some(KEY_LEFT) else
    if code == 39 then Some(KEY_RIGHT) else
    if code == 38 then Some(KEY_UP) else
    if code == 40 then Some(KEY_DOWN) else
    None
  }

  /** The code WindowsKeyMap lists for each logical key it maps to; -1 for
      the keys it has no code for. */
  ghost function WindowsCodeOf(k: Key): int {
    if k == KEY_A then 65 else
    if k == KEY_B then 66 else
    if k == KEY_C then 67 else
    if k == KEY_D then 68 else
    if k == KEY_E then 69 else
    if k == KEY_F then 70 else
    if k == KEY_G then 71 else
    if k == KEY_H then 72 else
    if k == KEY_I then 73 else
    if k == KEY_J then 74 else
    if k == KEY_K then 75 else
    if k == KEY_L then 76 else
    if k == KEY_M then 77 else
    if k == KEY_N then 78 else
    if k == KEY_O then 79 else
    if k == KEY_P then 80 else
    if k == KEY_Q then 81 else
    if k == KEY_R then 82 else
    if k == KEY_S then 83 else
    if k == KEY_T then 84 else
    if k == KEY_U then 85 else
    if k == KEY_V then 86 else
    if k == KEY_W then 87 else
    if k == KEY_X then 88 else
    if k == KEY_Y then 89 else
    if k == KEY_Z then 90 else
    if k == KEY_0 then 48 else
    if k == KEY_1 then 49 else
    if k == KEY_2 then 50 else
    if k == KEY_3 then 51 else
    if k == KEY_4 then 52 else
    if k == KEY_5 then 53 else
    if k == KEY_6 then 54 else
    if k == KEY_7 then 55 else
    if k == KEY_8 then 56 else
    if k == KEY_9 then 57 else
    if k == KEY_F1 then 112 else
    if k == KEY_F2 then 113 else
    if k == KEY_F3 then 114 else
    if k == KEY_F4 then 115 else
    if k == KEY_F5 then 116 else
    if k == KEY_F6 then 117 else
    if k == KEY_F7 then 118 else
    if k == KEY_F8 then 119 else
    if k == KEY_F9 then 120 else
    if k == KEY_F10 then 121 else
    if k == KEY_F11 then 122 else
    if k == KEY_F12 then 123 else
    if k == KEY_LSHIFT then 160 else
    if k == KEY_RSHIFT then 161 else
    if k == KEY_LCONTROL then 162 else
    if k == KEY_RCONTROL then 163 else
    if k == KEY_LALT then 164 else
    if k == KEY_RALT then 165 else
    if k == KEY_CAPSLOCK then 20 else
    if k == KEY_MENU then 93 else
    if k == KEY_ENTER then 13 else
    if k == KEY_SPACE then 32 else
    if k == KEY_TAB then 9 else
    if k == KEY_BACKSPACE then 8 else
    if k == KEY_ESCAPE then 27 else
    if k == KEY_LEFT then 37 else
    if k == KEY_RIGHT then 39 else
    if k == KEY_UP then 38 else
    if k == KEY_DOWN then 40 else
    if k == KEY_NUMPAD0 then 96 else
    if k == KEY_NUMPAD1 then 97 else
    if k == KEY_NUMPAD2 then 98 else
    if k == KEY_NUMPAD3 then 99 else
    if k == KEY_NUMPAD4 then 100 else
    if k == KEY_NUMPAD5 then 101 else
    if k == KEY_NUMPAD6 then 102 else
    if k == KEY_NUMPAD7 then 103 else
    if k == KEY_NUMPAD8 then 104 else
    if k == KEY_NUMPAD9 then 105 else
    if k == KEY_NUMLOCK then 144 else
    if k == KEY_MULTIPLY then 106 else
    if k == KEY_ADD then 107 else
    if k == KEY_SUBTRACT then 109 else
    if k == KEY_DECIMAL then 110 else
    if k == KEY_DIVIDE then 111 else
    if k == KEY_LWIN then 91 else
    if k == KEY_RWIN then 92 else
    -1
  }

  lemma WindowsCodeOfLookup0(code: int)
    requires code < 32 && WindowsKeyMap(code).Some?
    ensures WindowsCodeOf(WindowsKeyMap(code).value) == code
  {
  }

  lemma WindowsCodeOfLookup1(code: int)
    requires 32 <= code && code < 48 && WindowsKeyMap(code).Some?
    ensures WindowsCodeOf(WindowsKeyMap(code).value) == code
  {
  }

  lemma WindowsCodeOfLookup2(code: int)
    requires 48 <= code && code < 53 && WindowsKeyMap(code).Some?
    ensures WindowsCodeOf(WindowsKeyMap(code).value) == code
  {
  }

  lemma WindowsCodeOfLookup3(code: int)
    requires 53 <= code && code < 65 && WindowsKeyMap(code).Some?
    ensures WindowsCodeOf(WindowsKeyMap(code).value) == code
  {
  }

  lemma WindowsCodeOfLookup4(code: int)
    requires 65 <= code && code < 70 && WindowsKeyMap(code).Some?
    ensures WindowsCodeOf(WindowsKeyMap(code).value) == code
  {
  }

  lemma WindowsCodeOfLookup5(code: int)
    requires 70 <= code && code < 75 && WindowsKeyMap(code).Some?
    ensures WindowsCodeOf(WindowsKeyMap(code).value) == code
  {
  }

  lemma WindowsCodeOfLookup6(code: int)
    requires 75 <= code && code < 80 && WindowsKeyMap(code).Some?
    ensures WindowsCodeOf(WindowsKeyMap(code).value) == code
  {
  }

  lemma WindowsCodeOfLookup7(code: int)
    requires 80 <= code && code < 85 && WindowsKeyMap(code).Some?
    ensures WindowsCodeOf(WindowsKeyMap(code).value) == code
  {
  }

  lemma WindowsCodeOfLookup8(code: int)
    requires 85 <= code && code < 90 && WindowsKeyMap(code).Some?
    ensures WindowsCodeOf(WindowsKeyMap(code).value) == code
  {
  }

  lemma WindowsCodeOfLookup9(code: int)
    requires 90 <= code && code < 97 && WindowsKeyMap(code).Some?
    ensures WindowsCodeOf(WindowsKeyMap(code).value) == code
  {
  }

  lemma WindowsCodeOfLookup10(code: int)
    requires 97 <= code && code < 102 && WindowsKeyMap(code).Some?
    ensures WindowsCodeOf(WindowsKeyMap(code).value) == code
  {
  }

  lemma WindowsCodeOfLookup11(code: int)
    requires 102 <= code && code < 107 && WindowsKeyMap(code).Some?
    ensures WindowsCodeOf(WindowsKeyMap(code).value) == code
  {
  }

  lemma WindowsCodeOfLookup12(code: int)
    requires 107 <= code && code < 113 && WindowsKeyMap(code).Some?
    ensures WindowsCodeOf(WindowsKeyMap(code).value) == code
  {
  }

  lemma WindowsCodeOfLookup13(code: int)
    requires 113 <= code && code < 118 && WindowsKeyMap(code).Some?
    ensures WindowsCodeOf(WindowsKeyMap(code).value) == code
  {
  }

  lemma WindowsCodeOfLookup14(code: int)
    requires 118 <= code && code < 123 && WindowsKeyMap(code).Some?
    ensures WindowsCodeOf(WindowsKeyMap(code).value) == code
  {
  }

  lemma WindowsCodeOfLookup15(code: int)
    requires 123 <= code && code < 163 && WindowsKeyMap(code).Some?
    ensures WindowsCodeOf(WindowsKeyMap(code).value) == code
  {
  }

  lemma WindowsCodeOfLookup16(code: int)
    requires 163 <= code && WindowsKeyMap(code).Some?
    ensures WindowsCodeOf(WindowsKeyMap(code).value) == code
  {
  }

  lemma WindowsLookupCodeOf0(k: Key)
    requires KEY_A <= k <= KEY_E
    ensures WindowsKeyMap(WindowsCodeOf(k)) == Some(k)
  {
  }

  lemma WindowsLookupCodeOf1(k: Key)
    requires KEY_F <= k <= KEY_J
    ensures WindowsKeyMap(WindowsCodeOf(k)) == Some(k)
  {
  }

  lemma WindowsLookupCodeOf2(k: Key)
    requires KEY_K <= k <= KEY_O
    ensures WindowsKeyMap(WindowsCodeOf(k)) == Some(k)
  {
  }

  lemma WindowsLookupCodeOf3(k: Key)
    requires KEY_P <= k <= KEY_T
    ensures WindowsKeyMap(WindowsCodeOf(k)) == Some(k)
  {
  }

  lemma WindowsLookupCodeOf4(k: Key)
    requires KEY_U <= k <= KEY_Y
    ensures WindowsKeyMap(WindowsCodeOf(k)) == Some(k)
  {
  }

  lemma WindowsLookupCodeOf5(k: Key)
    requires KEY_Z <= k <= KEY_3
    ensures WindowsKeyMap(WindowsCodeOf(k)) == Some(k)
  {
  }

  lemma WindowsLookupCodeOf6(k: Key)
    requires KEY_4 <= k <= KEY_8
    ensures WindowsKeyMap(WindowsCodeOf(k)) == Some(k)
  {
  }

  lemma WindowsLookupCodeOf7(k: Key)
    requires KEY_9 <= k <= KEY_F4
    ensures WindowsKeyMap(WindowsCodeOf(k)) == Some(k)
  {
  }

  lemma WindowsLookupCodeOf8(k: Key)
    requires KEY_F5 <= k <= KEY_F9
    ensures WindowsKeyMap(WindowsCodeOf(k)) == Some(k)
  {
  }

  lemma WindowsLookupCodeOf9(k: Key)
    requires KEY_F10 <= k <= KEY_RSHIFT
    ensures WindowsKeyMap(WindowsCodeOf(k)) == Some(k)
  {
  }

  lemma WindowsLookupCodeOf10(k: Key)
    requires KEY_LCONTROL <= k <= KEY_CAPSLOCK
    ensures WindowsKeyMap(WindowsCodeOf(k)) == Some(k)
  {
  }

  lemma WindowsLookupCodeOf11(k: Key)
    requires KEY_MENU <= k <= KEY_BACKSPACE
    ensures WindowsKeyMap(WindowsCodeOf(k)) == Some(k)
  {
  }

  lemma WindowsLookupCodeOf12(k: Key)
    requires KEY_ESCAPE <= k <= KEY_DOWN
    ensures WindowsKeyMap(WindowsCodeOf(k)) == Some(k)
  {
  }

  lemma WindowsLookupCodeOf13(k: Key)
    requires KEY_NUMPAD0 <= k <= KEY_NUMPAD4
    ensures WindowsKeyMap(WindowsCodeOf(k)) == Some(k)
  {
  }

  lemma WindowsLookupCodeOf14(k: Key)
    requires KEY_NUMPAD5 <= k <= KEY_NUMPAD9
    ensures WindowsKeyMap(WindowsCodeOf(k)) == Some(k)
  {
  }

  lemma WindowsLookupCodeOf15(k: Key)
    requires KEY_NUMLOCK <= k <= KEY_DECIMAL
    ensures WindowsKeyMap(WindowsCodeOf(k)) == Some(k)
  {
  }

  lemma WindowsLookupCodeOf16(k: Key)
    requires KEY_DIVIDE <= k <= KEY_RWIN
    ensures WindowsKeyMap(WindowsCodeOf(k)) == Some(k)
  {
  }

  /** Every code WindowsKeyMap maps is the one listed for its key. */
  lemma WindowsCodeOfLookup(code: int)
    requires WindowsKeyMap(code).Some?
    ensures WindowsCodeOf(WindowsKeyMap(code).value) == code
  {
    if code < 32 {
      WindowsCodeOfLookup0(code);
    } else if code < 48 {
      WindowsCodeOfLookup1(code);
    } else if code < 53 {
      WindowsCodeOfLookup2(code);
    } else if code < 65 {
      WindowsCodeOfLookup3(code);
    } else if code < 70 {
      WindowsCodeOfLookup4(code);
    } else if code < 75 {
      WindowsCodeOfLookup5(code);
    } else if code < 80 {
      WindowsCodeOfLookup6(code);
    } else if code < 85 {
      WindowsCodeOfLookup7(code);
    } else if code < 90 {
      WindowsCodeOfLookup8(code);
    } else if code < 97 {
      WindowsCodeOfLookup9(code);
    } else if code < 102 {
      WindowsCodeOfLookup10(code);
    } else if code < 107 {
      WindowsCodeOfLookup11(code);
    } else if code < 113 {
      WindowsCodeOfLookup12(code);
    } else if code < 118 {
      WindowsCodeOfLookup13(code);
    } else if code < 123 {
      WindowsCodeOfLookup14(code);
    } else if code < 163 {
      WindowsCodeOfLookup15(code);
    } else {
      WindowsCodeOfLookup16(code);
    }
  }

  /** Every key other than KEY_LCLICK, KEY_RCLICK has a code in WindowsKeyMap. */
  lemma WindowsLookupCodeOf(k: Key)
    requires k != KEY_LCLICK && k != KEY_RCLICK
    ensures WindowsKeyMap(WindowsCodeOf(k)) == Some(k)
  {
    if k <= KEY_E {
      WindowsLookupCodeOf0(k);
    } else if k <= KEY_J {
      WindowsLookupCodeOf1(k);
    } else if k <= KEY_O {
      WindowsLookupCodeOf2(k);
    } else if k <= KEY_T {
      WindowsLookupCodeOf3(k);
    } else if k <= KEY_Y {
      WindowsLookupCodeOf4(k);
    } else if k <= KEY_3 {
      WindowsLookupCodeOf5(k);
    } else if k <= KEY_8 {
      WindowsLookupCodeOf6(k);
    } else if k <= KEY_F4 {
      WindowsLookupCodeOf7(k);
    } else if k <= KEY_F9 {
      WindowsLookupCodeOf8(k);
    } else if k <= KEY_RSHIFT {
      WindowsLookupCodeOf9(k);
    } else if k <= KEY_CAPSLOCK {
      WindowsLookupCodeOf10(k);
    } else if k <= KEY_BACKSPACE {
      WindowsLookupCodeOf11(k);
    } else if k <= KEY_DOWN {
      WindowsLookupCodeOf12(k);
    } else if k <= KEY_NUMPAD4 {
      WindowsLookupCodeOf13(k);
    } else if k <= KEY_NUMPAD9 {
      WindowsLookupCodeOf14(k);
    } else if k <= KEY_DECIMAL {
      WindowsLookupCodeOf15(k);
    } else {
      WindowsLookupCodeOf16(k);
    }
  }

  /** No two codes of WindowsKeyMap map to the same logical key. */
  lemma WindowsInjective(c1: int, c2: int)
    requires WindowsKeyMap(c1).Some? && WindowsKeyMap(c1) == WindowsKeyMap(c2)
    ensures c1 == c2
  {
    WindowsCodeOfLookup(c1);
    WindowsCodeOfLookup(c2);
  }

  /** A logical key has a code in WindowsKeyMap exactly when it is not one
      of KEY_LCLICK, KEY_RCLICK. */
  lemma WindowsCoverage(k: Key)
    ensures (exists code :: WindowsKeyMap(code) == Some(k)) <==> k != KEY_LCLICK && k != KEY_RCLICK
  {
    if k != KEY_LCLICK && k != KEY_RCLICK {
      WindowsLookupCodeOf(k);
    }
  }

  /** Virtual key codes of macOS (keyMappings.cpp:41-76), platform key code to logical key. The
      entries are tested in source order and the first match wins, as when
      std::map is built from an initializer list with repeated keys. */
  function MacKeyMap(code: int): (r: Option<Key>)
    ensures r.Some? ==> r.value < KEY_LCLICK
    ensures r.Some? ==> r.value != KEY_DECIMAL && r.value != KEY_DIVIDE
  {
    // Alphabet
    if code == 0 then Some(KEY_A) else
    if code == 11 then Some(KEY_B) else
    if code == 8 then Some(KEY_C) else
    if code == 2 then Some(KEY_D) else
    if code == 14 then Some(KEY_E) else
    if code == 3 then Some(KEY_F) else
    if code == 5 then Some(KEY_G) else
    if code == 4 then Some(KEY_H) else
    if code == 34 then Some(KEY_I) else
    if code == 38 then Some(KEY_J) else
    if code == 40 then Some(KEY_K) else
    if code == 37 then Some(KEY_L) else
    if code == 46 then Some(KEY_M) else
    if code == 45 then Some(KEY_N) else
    if code == 31 then Some(KEY_O) else
    if code == 35 then Some(KEY_P) else
    if code == 12 then Some(KEY_Q) else
    if code == 15 then Some(KEY_R) else
    if code == 1 then Some(KEY_S) else
    if code == 17 then Some(KEY_T) else
    if code == 32 then Some(KEY_U) else
    if code == 9 then Some(KEY_V) else
    if code == 13 then Some(KEY_W) else
    if code == 7 then Some(KEY_X) else
    if code == 16 then Some(KEY_Y) else
    if code == 6 then Some(KEY_Z) else
    // Numbers
    if code == 29 then Some(KEY_0) else
    if code == 18 then Some(KEY_1) else
    if code == 19 then Some(KEY_2) else
    if code == 20 then Some(KEY_3) else
    if code == 21 then Some(KEY_4) else
    if code == 23 then Some(KEY_5) else
    if code == 22 then Some(KEY_6) else
    if code == 26 then Some(KEY_7) else
    if code == 28 then Some(KEY_8) else
    if code == 25 then Some(KEY_9) else
    // Function Keys
    if code == 122 then Some(KEY_F1) else
    if code == 120 then Some(KEY_F2) else
    if code == 99 then Some(KEY_F3) else
    if code == 118 then Some(KEY_F4) else
    if code == 96 then Some(KEY_F5) else
    if code == 97 then Some(KEY_F6) else
    if code == 98 then Some(KEY_F7) else
    if code == 100 then Some(KEY_F8) else
    if code == 101 then Some(KEY_F9) else
    if code == 109 then Some(KEY_F10) else
    if code == 103 then Some(KEY_F11) else
    if code == 111 then Some(KEY_F12) else
    // Control Keys
    if code == 36 then Some(KEY_ENTER) else
    if code == 49 then Some(KEY_SPACE) else
    if code == 48 then Some(KEY_TAB) else
    if code == 51 then Some(KEY_BACKSPACE) else
    if code == 53 then Some(KEY_ESCAPE) else
    if code == 56 then Some(KEY_LSHIFT) else
    if code == 60 then Some(KEY_RSHIFT) else
    if code == 59 then Some(KEY_LCONTROL) else
    if code == 62 then Some(KEY_RCONTROL) else
    if code == 58 then Some(KEY_LALT) else
    if code == 61 then Some(KEY_RALT) else
    if code == 57 then Some(KEY_CAPSLOCK) else
    if code == 55 then Some(KEY_LWIN) else
    if code == 54 then Some(KEY_RWIN) else
    if code == 110 then Some(KEY_MENU) else
    // Numpad Keys
    if code == 81 then Some(KEY_NUMPAD0) else
    if code == 75 then Some(KEY_NUMPAD1) else
    if code == 67 then Some(KEY_NUMPAD2) else
    if code == 89 then Some(KEY_NUMPAD3) else
    if code == 91 then Some(KEY_NUMPAD4) else
    if code == 86 then Some(KEY_NUMPAD5) else
    if code == 88 then Some(KEY_NUMPAD6) else
    if code == 92 then Some(KEY_NUMPAD7) else
    if code == 82 then Some(KEY_NUMPAD8) else
    if code == 65 then Some(KEY_NUMPAD9) else
    if code == 69 then Some(KEY_MULTIPLY) else
    if code == 78 then Some(KEY_ADD) else
    if code == 74 then Some(KEY_SUBTRACT) else
    if code == 65 then Some(KEY_DECIMAL) else
    if code == 75 then Some(KEY_DIVIDE) else
    if code == 71 then Some(KEY_NUMLOCK) else
    // Arrow Keys
    if code == 123 then Some(KEY_LEFT) else
    if code == 124 then Some(KEY_RIGHT) else
    if code == 126 then Some(KEY_UP) else
    if code == 125 then Some(KEY_DOWN) else
    None
  }

  /** The code MacKeyMap lists for each logical key it maps to; -1 for
      the keys it has no code for. */
  ghost function MacCodeOf(k: Key): int {
    if k == KEY_A then 0 else
    if k == KEY_B then 11 else
    if k == KEY_C then 8 else
    if k == KEY_D then 2 else
    if k == KEY_E then 14 else
    if k == KEY_F then 3 else
    if k == KEY_G then 5 else
    if k == KEY_H then 4 else
    if k == KEY_I then 34 else
    if k == KEY_J then 38 else
    if k == KEY_K then 40 else
    if k == KEY_L then 37 else
    if k == KEY_M then 46 else
    if k == KEY_N then 45 else
    if k == KEY_O then 31 else
    if k == KEY_P then 35 else
    if k == KEY_Q then 12 else
    if k == KEY_R then 15 else
    if k == KEY_S then 1 else
    if k == KEY_T then 17 else
    if k == KEY_U then 32 else
    if k == KEY_V then 9 else
    if k == KEY_W then 13 else
    if k == KEY_X then 7 else
    if k == KEY_Y then 16 else
    if k == KEY_Z then 6 else
    if k == KEY_0 then 29 else
    if k == KEY_1 then 18 else
    if k == KEY_2 then 19 else
    if k == KEY_3 then 20 else
    if k == KEY_4 then 21 else
    if k == KEY_5 then 23 else
    if k == KEY_6 then 22 else
    if k == KEY_7 then 26 else
    if k == KEY_8 then 28 else
    if k == KEY_9 then 25 else
    if k == KEY_F1 then 122 else
    if k == KEY_F2 then 120 else
    if k == KEY_F3 then 99 else
    if k == KEY_F4 then 118 else
    if k == KEY_F5 then 96 else
    if k == KEY_F6 then 97 else
    if k == KEY_F7 then 98 else
    if k == KEY_F8 then 100 else
    if k == KEY_F9 then 101 else
    if k == KEY_F10 then 109 else
    if k == KEY_F11 then 103 else
    if k == KEY_F12 then 111 else
    if k == KEY_LSHIFT then 56 else
    if k == KEY_RSHIFT then 60 else
    if k == KEY_LCONTROL then 59 else
    if k == KEY_RCONTROL then 62 else
    if k == KEY_LALT then 58 else
    if k == KEY_RALT then 61 else
    if k == KEY_CAPSLOCK then 57 else
    if k == KEY_MENU then 110 else
    if k == KEY_ENTER then 36 else
    if k == KEY_SPACE then 49 else
    if k == KEY_TAB then 48 else
    if k == KEY_BACKSPACE then 51 else
    if k == KEY_ESCAPE then 53 else
    if k == KEY_LEFT then 123 else
    if k == KEY_RIGHT then 124 else
    if k == KEY_UP then 126 else
    if k == KEY_DOWN then 125 else
    if k == KEY_NUMPAD0 then 81 else
    if k == KEY_NUMPAD1 then 75 else
    if k == KEY_NUMPAD2 then 67 else
    if k == KEY_NUMPAD3 then 89 else
    if k == KEY_NUMPAD4 then 91 else
    if k == KEY_NUMPAD5 then 86 else
    if k == KEY_NUMPAD6 then 88 else
    if k == KEY_NUMPAD7 then 92 else
    if k == KEY_NUMPAD8 then 82 else
    if k == KEY_NUMPAD9 then 65 else
    if k == KEY_NUMLOCK then 71 else
    if k == KEY_MULTIPLY then 69 else
    if k == KEY_ADD then 78 else
    if k == KEY_SUBTRACT then 74 else
    if k == KEY_LWIN then 55 else
    if k == KEY_RWIN then 54 else
    -1
  }

  lemma MacCodeOfLookup0(code: int)
    requires code < 5 && MacKeyMap(code).Some?
    ensures MacCodeOf(MacKeyMap(code).value) == code
  {
  }

  lemma MacCodeOfLookup1(code: int)
    requires 5 <= code && code < 11 && MacKeyMap(code).Some?
    ensures MacCodeOf(MacKeyMap(code).value) == code
  {
  }

  lemma MacCodeOfLookup2(code: int)
    requires 11 <= code && code < 16 && MacKeyMap(code).Some?
    ensures MacCodeOf(MacKeyMap(code).value) == code
  {
  }

  lemma MacCodeOfLookup3(code: int)
    requires 16 <= code && code < 21 && MacKeyMap(code).Some?
    ensures MacCodeOf(MacKeyMap(code).value) == code
  {
  }

  lemma MacCodeOfLookup4(code: int)
    requires 21 <= code && code < 28 && MacKeyMap(code).Some?
    ensures MacCodeOf(MacKeyMap(code).value) == code
  {
  }

  lemma MacCodeOfLookup5(code: int)
    requires 28 <= code && code < 35 && MacKeyMap(code).Some?
    ensures MacCodeOf(MacKeyMap(code).value) == code
  {
  }

  lemma MacCodeOfLookup6(code: int)
    requires 35 <= code && code < 45 && MacKeyMap(code).Some?
    ensures MacCodeOf(MacKeyMap(code).value) == code
  {
  }

  lemma MacCodeOfLookup7(code: int)
    requires 45 <= code && code < 53 && MacKeyMap(code).Some?
    ensures MacCodeOf(MacKeyMap(code).value) == code
  {
  }

  lemma MacCodeOfLookup8(code: int)
    requires 53 <= code && code < 58 && MacKeyMap(code).Some?
    ensures MacCodeOf(MacKeyMap(code).value) == code
  {
  }

  lemma MacCodeOfLookup9(code: int)
    requires 58 <= code && code < 65 && MacKeyMap(code).Some?
    ensures MacCodeOf(MacKeyMap(code).value) == code
  {
  }

  lemma MacCodeOfLookup10(code: int)
    requires 65 <= code && code < 75 && MacKeyMap(code).Some?
    ensures MacCodeOf(MacKeyMap(code).value) == code
  {
  }

  lemma MacCodeOfLookup11(code: int)
    requires 75 <= code && code < 88 && MacKeyMap(code).Some?
    ensures MacCodeOf(MacKeyMap(code).value) == code
  {
  }

  lemma MacCodeOfLookup12(code: int)
    requires 88 <= code && code < 97 && MacKeyMap(code).Some?
    ensures MacCodeOf(MacKeyMap(code).value) == code
  {
  }

  lemma MacCodeOfLookup13(code: int)
    requires 97 <= code && code < 103 && MacKeyMap(code).Some?
    ensures MacCodeOf(MacKeyMap(code).value) == code
  {
  }

  lemma MacCodeOfLookup14(code: int)
    requires 103 <= code && code < 120 && MacKeyMap(code).Some?
    ensures MacCodeOf(MacKeyMap(code).value) == code
  {
  }

  lemma MacCodeOfLookup15(code: int)
    requires 120 <= code && code < 126 && MacKeyMap(code).Some?
    ensures MacCodeOf(MacKeyMap(code).value) == code
  {
  }

  lemma MacCodeOfLookup16(code: int)
    requires 126 <= code && MacKeyMap(code).Some?
    ensures MacCodeOf(MacKeyMap(code).value) == code
  {
  }

  lemma MacLookupCodeOf0(k: Key)
    requires KEY_A <= k <= KEY_E
    ensures MacKeyMap(MacCodeOf(k)) == Some(k)
  {
  }

  lemma MacLookupCodeOf1(k: Key)
    requires KEY_F <= k <= KEY_J
    ensures MacKeyMap(MacCodeOf(k)) == Some(k)
  {
  }

  lemma MacLookupCodeOf2(k: Key)
    requires KEY_K <= k <= KEY_O
    ensures MacKeyMap(MacCodeOf(k)) == Some(k)
  {
  }

  lemma MacLookupCodeOf3(k: Key)
    requires KEY_P <= k <= KEY_T
    ensures MacKeyMap(MacCodeOf(k)) == Some(k)
  {
  }

  lemma MacLookupCodeOf4(k: Key)
    requires KEY_U <= k <= KEY_Y
    ensures MacKeyMap(MacCodeOf(k)) == Some(k)
  {
  }

  lemma MacLookupCodeOf5(k: Key)
    requires KEY_Z <= k <= KEY_3
    ensures MacKeyMap(MacCodeOf(k)) == Some(k)
  {
  }

  lemma MacLookupCodeOf6(k: Key)
    requires KEY_4 <= k <= KEY_8
    ensures MacKeyMap(MacCodeOf(k)) == Some(k)
  {
  }

  lemma MacLookupCodeOf7(k: Key)
    requires KEY_9 <= k <= KEY_F4
    ensures MacKeyMap(MacCodeOf(k)) == Some(k)
  {
  }

  lemma MacLookupCodeOf8(k: Key)
    requires KEY_F5 <= k <= KEY_F9
    ensures MacKeyMap(MacCodeOf(k)) == Some(k)
  {
  }

  lemma MacLookupCodeOf9(k: Key)
    requires KEY_F10 <= k <= KEY_RSHIFT
    ensures MacKeyMap(MacCodeOf(k)) == Some(k)
  {
  }

  lemma MacLookupCodeOf10(k: Key)
    requires KEY_LCONTROL <= k <= KEY_CAPSLOCK
    ensures MacKeyMap(MacCodeOf(k)) == Some(k)
  {
  }

  lemma MacLookupCodeOf11(k: Key)
    requires KEY_MENU <= k <= KEY_BACKSPACE
    ensures MacKeyMap(MacCodeOf(k)) == Some(k)
  {
  }

  lemma MacLookupCodeOf12(k: Key)
    requires KEY_ESCAPE <= k <= KEY_DOWN
    ensures MacKeyMap(MacCodeOf(k)) == Some(k)
  {
  }

  lemma MacLookupCodeOf13(k: Key)
    requires KEY_NUMPAD0 <= k <= KEY_NUMPAD4
    ensures MacKeyMap(MacCodeOf(k)) == Some(k)
  {
  }

  lemma MacLookupCodeOf14(k: Key)
    requires KEY_NUMPAD5 <= k <= KEY_NUMPAD9
    ensures MacKeyMap(MacCodeOf(k)) == Some(k)
  {
  }

  lemma MacLookupCodeOf15(k: Key)
    requires KEY_NUMLOCK <= k <= KEY_LWIN && k != KEY_DECIMAL && k != KEY_DIVIDE
    ensures MacKeyMap(MacCodeOf(k)) == Some(k)
  {
  }

  lemma MacLookupCodeOf16(k: Key)
    requires KEY_RWIN <= k <= KEY_RWIN
    ensures MacKeyMap(MacCodeOf(k)) == Some(k)
  {
  }

  /** Every code MacKeyMap maps is the one listed for its key. */
  lemma MacCodeOfLookup(code: int)
    requires MacKeyMap(code).Some?
    ensures MacCodeOf(MacKeyMap(code).value) == code
  {
    if code < 5 {
      MacCodeOfLookup0(code);
    } else if code < 11 {
      MacCodeOfLookup1(code);
    } else if code < 16 {
      MacCodeOfLookup2(code);
    } else if code < 21 {
      MacCodeOfLookup3(code);
    } else if code < 28 {
      MacCodeOfLookup4(code);
    } else if code < 35 {
      MacCodeOfLookup5(code);
    } else if code < 45 {
      MacCodeOfLookup6(code);
    } else if code < 53 {
      MacCodeOfLookup7(code);
    } else if code < 58 {
      MacCodeOfLookup8(code);
    } else if code < 65 {
      MacCodeOfLookup9(code);
    } else if code < 75 {
      MacCodeOfLookup10(code);
    } else if code < 88 {
      MacCodeOfLookup11(code);
    } else if code < 97 {
      MacCodeOfLookup12(code);
    } else if code < 103 {
      MacCodeOfLookup13(code);
    } else if code < 120 {
      MacCodeOfLookup14(code);
    } else if code < 126 {
      MacCodeOfLookup15(code);
    } else {
      MacCodeOfLookup16(code);
    }
  }

  /** Every key other than KEY_DECIMAL, KEY_DIVIDE, KEY_LCLICK, KEY_RCLICK has a code in MacKeyMap. */
  lemma MacLookupCodeOf(k: Key)
    requires k != KEY_DECIMAL && k != KEY_DIVIDE && k != KEY_LCLICK && k != KEY_RCLICK
    ensures MacKeyMap(MacCodeOf(k)) == Some(k)
  {
    if k <= KEY_E {
      MacLookupCodeOf0(k);
    } else if k <= KEY_J {
      MacLookupCodeOf1(k);
    } else if k <= KEY_O {
      MacLookupCodeOf2(k);
    } else if k <= KEY_T {
      MacLookupCodeOf3(k);
    } else if k <= KEY_Y {
      MacLookupCodeOf4(k);
    } else if k <= KEY_3 {
      MacLookupCodeOf5(k);
    } else if k <= KEY_8 {
      MacLookupCodeOf6(k);
    } else if k <= KEY_F4 {
      MacLookupCodeOf7(k);
    } else if k <= KEY_F9 {
      MacLookupCodeOf8(k);
    } else if k <= KEY_RSHIFT {
      MacLookupCodeOf9(k);
    } else if k <= KEY_CAPSLOCK {
      MacLookupCodeOf10(k);
    } else if k <= KEY_BACKSPACE {
      MacLookupCodeOf11(k);
    } else if k <= KEY_DOWN {
      MacLookupCodeOf12(k);
    } else if k <= KEY_NUMPAD4 {
      MacLookupCodeOf13(k);
    } else if k <= KEY_NUMPAD9 {
      MacLookupCodeOf14(k);
    } else if k <= KEY_LWIN {
      MacLookupCodeOf15(k);
    } else {
      MacLookupCodeOf16(k);
    }
  }

  /** No two codes of MacKeyMap map to the same logical key. */
  lemma MacInjective(c1: int, c2: int)
    requires MacKeyMap(c1).Some? && MacKeyMap(c1) == MacKeyMap(c2)
    ensures c1 == c2
  {
    MacCodeOfLookup(c1);
    MacCodeOfLookup(c2);
  }

  /** A logical key has a code in MacKeyMap exactly when it is not one
      of KEY_DECIMAL, KEY_DIVIDE, KEY_LCLICK, KEY_RCLICK. */
  lemma MacCoverage(k: Key)
    ensures (exists code :: MacKeyMap(code) == Some(k)) <==> k != KEY_DECIMAL && k != KEY_DIVIDE && k != KEY_LCLICK && k != KEY_RCLICK
  {
    if k != KEY_DECIMAL && k != KEY_DIVIDE && k != KEY_LCLICK && k != KEY_RCLICK {
      MacLookupCodeOf(k);
    }
  }

  /** X11 key codes of Linux (keyMappings.cpp:78-113), platform key code to logical key. The
      entries are tested in source order and the first match wins, as when
      std::map is built from an initializer list with repeated keys. */
  function LinuxKeyMap(code: int): (r: Option<Key>)
    ensures r.Some? ==> r.value < KEY_LCLICK
  {
    // Alphabet
    if code == 38 then Some(KEY_A) else
    if code == 56 then Some(KEY_B) else
    if code == 54 then Some(KEY_C) else
    if code == 40 then Some(KEY_D) else
    if code == 26 then Some(KEY_E) else
    if code == 41 then Some(KEY_F) else
    if code == 42 then Some(KEY_G) else
    if code == 43 then Some(KEY_H) else
    if code == 31 then Some(KEY_I) else
    if code == 44 then Some(KEY_J) else
    if code == 45 then Some(KEY_K) else
    if code == 46 then Some(KEY_L) else
    if code == 58 then Some(KEY_M) else
    if code == 57 then Some(KEY_N) else
    if code == 32 then Some(KEY_O) else
    if code == 33 then Some(KEY_P) else
    if code == 24 then Some(KEY_Q) else
    if code == 27 then Some(KEY_R) else
    if code == 39 then Some(KEY_S) else
    if code == 28 then Some(KEY_T) else
    if code == 30 then Some(KEY_U) else
    if code == 55 then Some(KEY_V) else
    if code == 25 then Some(KEY_W) else
    if code == 53 then Some(KEY_X) else
    if code == 29 then Some(KEY_Y) else
    if code == 52 then Some(KEY_Z) else
    // Numbers
    if code == 19 then Some(KEY_0) else
    if code == 10 then Some(KEY_1) else
    if code == 11 then Some(KEY_2) else
    if code == 12 then Some(KEY_3) else
    if code == 13 then Some(KEY_4) else
    if code == 14 then Some(KEY_5) else
    if code == 15 then Some(KEY_6) else
    if code == 16 then Some(KEY_7) else
    if code == 17 then Some(KEY_8) else
    if code == 18 then Some(KEY_9) else
    // Function Keys
    if code == 67 then Some(KEY_F1) else
    if code == 68 then Some(KEY_F2) else
    if code == 69 then Some(KEY_F3) else
    if code == 70 then Some(KEY_F4) else
    if code == 71 then Some(KEY_F5) else
    if code == 72 then Some(KEY_F6) else
    if code == 73 then Some(KEY_F7) else
    if code == 74 then Some(KEY_F8) else
    if code == 75 then Some(KEY_F9) else
    if code == 76 then Some(KEY_F10) else
    if code == 95 then Some(KEY_F11) else
    if code == 96 then Some(KEY_F12) else
    // Control Keys
    if code == 36 then Some(KEY_ENTER) else
    if code == 65 then Some(KEY_SPACE) else
    if code == 23 then Some(KEY_TAB) else
    if code == 22 then Some(KEY_BACKSPACE) else
    if code == 9 then Some(KEY_ESCAPE) else
    if code == 50 then Some(KEY_LSHIFT) else
    if code == 62 then Some(KEY_RSHIFT) else
    if code == 37 then Some(KEY_LCONTROL) else
    if code == 105 then Some(KEY_RCONTROL) else
    if code == 64 then Some(KEY_LALT) else
    if code == 108 then Some(KEY_RALT) else
    if code == 66 then Some(KEY_CAPSLOCK) else
    if code == 133 then Some(KEY_LWIN) else
    if code == 134 then Some(KEY_RWIN) else
    if code == 135 then Some(KEY_MENU) else
    // Numpad Keys
    if code == 90 then Some(KEY_NUMPAD0) else
    if code == 87 then Some(KEY_NUMPAD1) else
    if code == 88 then Some(KEY_NUMPAD2) else
    if code == 89 then Some(KEY_NUMPAD3) else
    if code == 83 then Some(KEY_NUMPAD4) else
    if code == 84 then Some(KEY_NUMPAD5) else
    if code == 85 then Some(KEY_NUMPAD6) else
    if code == 79 then Some(KEY_NUMPAD7) else
    if code == 80 then Some(KEY_NUMPAD8) else
    if code == 81 then Some(KEY_NUMPAD9) else
    if code == 63 then Some(KEY_MULTIPLY) else
    if code == 86 then Some(KEY_ADD) else
    if code == 82 then Some(KEY_SUBTRACT) else
    if code == 91 then Some(KEY_DECIMAL) else
    if code == 106 then Some(KEY_DIVIDE) else
    if code == 77 then Some(KEY_NUMLOCK) else
    // Arrow Keys
    if code == 113 then Some(KEY_LEFT) else
    if code == 114 then Some(KEY_RIGHT) else
    if code == 111 then Some(KEY_UP) else
    if code == 116 then Some(KEY_DOWN) else
    None
  }

  /** The code LinuxKeyMap lists for each logical key it maps to; -1 for
      the keys it has no code for. */
  ghost function LinuxCodeOf(k: Key): int {
    if k == KEY_A then 38 else
    if k == KEY_B then 56 else
    if k == KEY_C then 54 else
    if k == KEY_D then 40 else
    if k == KEY_E then 26 else
    if k == KEY_F then 41 else
    if k == KEY_G then 42 else
    if k == KEY_H then 43 else
    if k == KEY_I then 31 else
    if k == KEY_J then 44 else
    if k == KEY_K then 45 else
    if k == KEY_L then 46 else
    if k == KEY_M then 58 else
    if k == KEY_N then 57 else
    if k == KEY_O then 32 else
    if k == KEY_P then 33 else
    if k == KEY_Q then 24 else
    if k == KEY_R then 27 else
    if k == KEY_S then 39 else
    if k == KEY_T then 28 else
    if k == KEY_U then 30 else
    if k == KEY_V then 55 else
    if k == KEY_W then 25 else
    if k == KEY_X then 53 else
    if k == KEY_Y then 29 else
    if k == KEY_Z then 52 else
    if k == KEY_0 then 19 else
    if k == KEY_1 then 10 else
    if k == KEY_2 then 11 else
    if k == KEY_3 then 12 else
    if k == KEY_4 then 13 else
    if k == KEY_5 then 14 else
    if k == KEY_6 then 15 else
    if k == KEY_7 then 16 else
    if k == KEY_8 then 17 else
    if k == KEY_9 then 18 else
    if k == KEY_F1 then 67 else
    if k == KEY_F2 then 68 else
    if k == KEY_F3 then 69 else
    if k == KEY_F4 then 70 else
    if k == KEY_F5 then 71 else
    if k == KEY_F6 then 72 else
    if k == KEY_F7 then 73 else
    if k == KEY_F8 then 74 else
    if k == KEY_F9 then 75 else
    if k == KEY_F10 then 76 else
    if k == KEY_F11 then 95 else
    if k == KEY_F12 then 96 else
    if k == KEY_LSHIFT then 50 else
    if k == KEY_RSHIFT then 62 else
    if k == KEY_LCONTROL then 37 else
    if k == KEY_RCONTROL then 105 else
    if k == KEY_LALT then 64 else
    if k == KEY_RALT then 108 else
    if k == KEY_CAPSLOCK then 66 else
    if k == KEY_MENU then 135 else
    if k == KEY_ENTER then 36 else
    if k == KEY_SPACE then 65 else
    if k == KEY_TAB then 23 else
    if k == KEY_BACKSPACE then 22 else
    if k == KEY_ESCAPE then 9 else
    if k == KEY_LEFT then 113 else
    if k == KEY_RIGHT then 114 else
    if k == KEY_UP then 111 else
    if k == KEY_DOWN then 116 else
    if k == KEY_NUMPAD0 then 90 else
    if k == KEY_NUMPAD1 then 87 else
    if k == KEY_NUMPAD2 then 88 else
    if k == KEY_NUMPAD3 then 89 else
    if k == KEY_NUMPAD4 then 83 else
    if k == KEY_NUMPAD5 then 84 else
    if k == KEY_NUMPAD6 then 85 else
    if k == KEY_NUMPAD7 then 79 else
    if k == KEY_NUMPAD8 then 80 else
    if k == KEY_NUMPAD9 then 81 else
    if k == KEY_NUMLOCK then 77 else
    if k == KEY_MULTIPLY then 63 else
    if k == KEY_ADD then 86 else
    if k == KEY_SUBTRACT then 82 else
    if k == KEY_DECIMAL then 91 else
    if k == KEY_DIVIDE then 106 else
    if k == KEY_LWIN then 133 else
    if k == KEY_RWIN then 134 else
    -1
  }

  lemma LinuxCodeOfLookup0(code: int)
    requires code < 14 && LinuxKeyMap(code).Some?
    ensures LinuxCodeOf(LinuxKeyMap(code).value) == code
  {
  }

  lemma LinuxCodeOfLookup1(code: int)
    requires 14 <= code && code < 19 && LinuxKeyMap(code).Some?
    ensures LinuxCodeOf(LinuxKeyMap(code).value) == code
  {
  }

  lemma LinuxCodeOfLookup2(code: int)
    requires 19 <= code && code < 26 && LinuxKeyMap(code).Some?
    ensures LinuxCodeOf(LinuxKeyMap(code).value) == code
  {
  }

  lemma LinuxCodeOfLookup3(code: int)
    requires 26 <= code && code < 31 && LinuxKeyMap(code).Some?
    ensures LinuxCodeOf(LinuxKeyMap(code).value) == code
  {
  }

  lemma LinuxCodeOfLookup4(code: int)
    requires 31 <= code && code < 38 && LinuxKeyMap(code).Some?
    ensures LinuxCodeOf(LinuxKeyMap(code).value) == code
  {
  }

  lemma LinuxCodeOfLookup5(code: int)
    requires 38 <= code && code < 43 && LinuxKeyMap(code).Some?
    ensures LinuxCodeOf(LinuxKeyMap(code).value) == code
  {
  }

  lemma LinuxCodeOfLookup6(code: int)
    requires 43 <= code && code < 52 && LinuxKeyMap(code).Some?
    ensures LinuxCodeOf(LinuxKeyMap(code).value) == code
  {
  }

  lemma LinuxCodeOfLookup7(code: int)
    requires 52 <= code && code < 57 && LinuxKeyMap(code).Some?
    ensures LinuxCodeOf(LinuxKeyMap(code).value) == code
  {
  }

  lemma LinuxCodeOfLookup8(code: int)
    requires 57 <= code && code < 65 && LinuxKeyMap(code).Some?
    ensures LinuxCodeOf(LinuxKeyMap(code).value) == code
  {
  }

  lemma LinuxCodeOfLookup9(code: int)
    requires 65 <= code && code < 70 && LinuxKeyMap(code).Some?
    ensures LinuxCodeOf(LinuxKeyMap(code).value) == code
  {
  }

  lemma LinuxCodeOfLookup10(code: int)
    requires 70 <= code && code < 75 && LinuxKeyMap(code).Some?
    ensures LinuxCodeOf(LinuxKeyMap(code).value) == code
  {
  }

  lemma LinuxCodeOfLookup11(code: int)
    requires 75 <= code && code < 81 && LinuxKeyMap(code).Some?
    ensures LinuxCodeOf(LinuxKeyMap(code).value) == code
  {
  }

  lemma LinuxCodeOfLookup12(code: int)
    requires 81 <= code && code < 86 && LinuxKeyMap(code).Some?
    ensures LinuxCodeOf(LinuxKeyMap(code).value) == code
  {
  }

  lemma LinuxCodeOfLookup13(code: int)
    requires 86 <= code && code < 91 && LinuxKeyMap(code).Some?
    ensures LinuxCodeOf(LinuxKeyMap(code).value) == code
  {
  }

  lemma LinuxCodeOfLookup14(code: int)
    requires 91 <= code && code < 108 && LinuxKeyMap(code).Some?
    ensures LinuxCodeOf(LinuxKeyMap(code).value) == code
  {
  }

  lemma LinuxCodeOfLookup15(code: int)
    requires 108 <= code && code < 133 && LinuxKeyMap(code).Some?
    ensures LinuxCodeOf(LinuxKeyMap(code).value) == code
  {
  }

  lemma LinuxCodeOfLookup16(code: int)
    requires 133 <= code && LinuxKeyMap(code).Some?
    ensures LinuxCodeOf(LinuxKeyMap(code).value) == code
  {
  }

  lemma LinuxLookupCodeOf0(k: Key)
    requires KEY_A <= k <= KEY_E
    ensures LinuxKeyMap(LinuxCodeOf(k)) == Some(k)
  {
  }

  lemma LinuxLookupCodeOf1(k: Key)
    requires KEY_F <= k <= KEY_J
    ensures LinuxKeyMap(LinuxCodeOf(k)) == Some(k)
  {
  }

  lemma LinuxLookupCodeOf2(k: Key)
    requires KEY_K <= k <= KEY_O
    ensures LinuxKeyMap(LinuxCodeOf(k)) == Some(k)
  {
  }

  lemma LinuxLookupCodeOf3(k: Key)
    requires KEY_P <= k <= KEY_T
    ensures LinuxKeyMap(LinuxCodeOf(k)) == Some(k)
  {
  }

  lemma LinuxLookupCodeOf4(k: Key)
    requires KEY_U <= k <= KEY_Y
    ensures LinuxKeyMap(LinuxCodeOf(k)) == Some(k)
  {
  }

  lemma LinuxLookupCodeOf5(k: Key)
    requires KEY_Z <= k <= KEY_3
    ensures LinuxKeyMap(LinuxCodeOf(k)) == Some(k)
  {
  }

  lemma LinuxLookupCodeOf6(k: Key)
    requires KEY_4 <= k <= KEY_8
    ensures LinuxKeyMap(LinuxCodeOf(k)) == Some(k)
  {
  }

  lemma LinuxLookupCodeOf7(k: Key)
    requires KEY_9 <= k <= KEY_F4
    ensures LinuxKeyMap(LinuxCodeOf(k)) == Some(k)
  {
  }

  lemma LinuxLookupCodeOf8(k: Key)
    requires KEY_F5 <= k <= KEY_F9
    ensures LinuxKeyMap(LinuxCodeOf(k)) == Some(k)
  {
  }

  lemma LinuxLookupCodeOf9(k: Key)
    requires KEY_F10 <= k <= KEY_RSHIFT
    ensures LinuxKeyMap(LinuxCodeOf(k)) == Some(k)
  {
  }

  lemma LinuxLookupCodeOf10(k: Key)
    requires KEY_LCONTROL <= k <= KEY_CAPSLOCK
    ensures LinuxKeyMap(LinuxCodeOf(k)) == Some(k)
  {
  }

  lemma LinuxLookupCodeOf11(k: Key)
    requires KEY_MENU <= k <= KEY_BACKSPACE
    ensures LinuxKeyMap(LinuxCodeOf(k)) == Some(k)
  {
  }

  lemma LinuxLookupCodeOf12(k: Key)
    requires KEY_ESCAPE <= k <= KEY_DOWN
    ensures LinuxKeyMap(LinuxCodeOf(k)) == Some(k)
  {
  }

  lemma LinuxLookupCodeOf13(k: Key)
    requires KEY_NUMPAD0 <= k <= KEY_NUMPAD4
    ensures LinuxKeyMap(LinuxCodeOf(k)) == Some(k)
  {
  }

  lemma LinuxLookupCodeOf14(k: Key)
    requires KEY_NUMPAD5 <= k <= KEY_NUMPAD9
    ensures LinuxKeyMap(LinuxCodeOf(k)) == Some(k)
  {
  }

  lemma LinuxLookupCodeOf15(k: Key)
    requires KEY_NUMLOCK <= k <= KEY_DECIMAL
    ensures LinuxKeyMap(LinuxCodeOf(k)) == Some(k)
  {
  }

  lemma LinuxLookupCodeOf16(k: Key)
    requires KEY_DIVIDE <= k <= KEY_RWIN
    ensures LinuxKeyMap(LinuxCodeOf(k)) == Some(k)
  {
  }

  /** Every code LinuxKeyMap maps is the one listed for its key. */
  lemma LinuxCodeOfLookup(code: int)
    requires LinuxKeyMap(code).Some?
    ensures LinuxCodeOf(LinuxKeyMap(code).value) == code
  {
    if code < 14 {
      LinuxCodeOfLookup0(code);
    } else if code < 19 {
      LinuxCodeOfLookup1(code);
    } else if code < 26 {
      LinuxCodeOfLookup2(code);
    } else if code < 31 {
      LinuxCodeOfLookup3(code);
    } else if code < 38 {
      LinuxCodeOfLookup4(code);
    } else if code < 43 {
      LinuxCodeOfLookup5(code);
    } else if code < 52 {
      LinuxCodeOfLookup6(code);
    } else if code < 57 {
      LinuxCodeOfLookup7(code);
    } else if code < 65 {
      LinuxCodeOfLookup8(code);
    } else if code < 70 {
      LinuxCodeOfLookup9(code);
    } else if code < 75 {
      LinuxCodeOfLookup10(code);
    } else if code < 81 {
      LinuxCodeOfLookup11(code);
    } else if code < 86 {
      LinuxCodeOfLookup12(code);
    } else if code < 91 {
      LinuxCodeOfLookup13(code);
    } else if code < 108 {
      LinuxCodeOfLookup14(code);
    } else if code < 133 {
      LinuxCodeOfLookup15(code);
    } else {
      LinuxCodeOfLookup16(code);
    }
  }

  /** Every key other than KEY_LCLICK, KEY_RCLICK has a code in LinuxKeyMap. */
  lemma LinuxLookupCodeOf(k: Key)
    requires k != KEY_LCLICK && k != KEY_RCLICK
    ensures LinuxKeyMap(LinuxCodeOf(k)) == Some(k)
  {
    if k <= KEY_E {
      LinuxLookupCodeOf0(k);
    } else if k <= KEY_J {
      LinuxLookupCodeOf1(k);
    } else if k <= KEY_O {
      LinuxLookupCodeOf2(k);
    } else if k <= KEY_T {
      LinuxLookupCodeOf3(k);
    } else if k <= KEY_Y {
      LinuxLookupCodeOf4(k);
    } else if k <= KEY_3 {
      LinuxLookupCodeOf5(k);
    } else if k <= KEY_8 {
      LinuxLookupCodeOf6(k);
    } else if k <= KEY_F4 {
      LinuxLookupCodeOf7(k);
    } else if k <= KEY_F9 {
      LinuxLookupCodeOf8(k);
    } else if k <= KEY_RSHIFT {
      LinuxLookupCodeOf9(k);
    } else if k <= KEY_CAPSLOCK {
      LinuxLookupCodeOf10(k);
    } else if k <= KEY_BACKSPACE {
      LinuxLookupCodeOf11(k);
    } else if k <= KEY_DOWN {
      LinuxLookupCodeOf12(k);
    } else if k <= KEY_NUMPAD4 {
      LinuxLookupCodeOf13(k);
    } else if k <= KEY_NUMPAD9 {
      LinuxLookupCodeOf14(k);
    } else if k <= KEY_DECIMAL {
      LinuxLookupCodeOf15(k);
    } else {
      LinuxLookupCodeOf16(k);
    }
  }

  /** No two codes of LinuxKeyMap map to the same logical key. */
  lemma LinuxInjective(c1: int, c2: int)
    requires LinuxKeyMap(c1).Some? && LinuxKeyMap(c1) == LinuxKeyMap(c2)
    ensures c1 == c2
  {
    LinuxCodeOfLookup(c1);
    LinuxCodeOfLookup(c2);
  }

  /** A logical key has a code in LinuxKeyMap exactly when it is not one
      of KEY_LCLICK, KEY_RCLICK. */
  lemma LinuxCoverage(k: Key)
    ensures (exists code :: LinuxKeyMap(code) == Some(k)) <==> k != KEY_LCLICK && k != KEY_RCLICK
  {
    if k != KEY_LCLICK && k != KEY_RCLICK {
      LinuxLookupCodeOf(k);
    }
  }

  // ---------------------------------------------------------------------
  // Layout of eKey and of the Windows table

  /** KEY_A..KEY_Z are 0..25 and KEY_0..KEY_9 follow as 26..35; the two
      mouse-button keys close the enumeration. */
  lemma KeyLayout()
    ensures [KEY_A, KEY_B, KEY_C, KEY_D, KEY_E, KEY_F, KEY_G, KEY_H, KEY_I, KEY_J, KEY_K, KEY_L, KEY_M,
             KEY_N, KEY_O, KEY_P, KEY_Q, KEY_R, KEY_S, KEY_T, KEY_U, KEY_V, KEY_W, KEY_X, KEY_Y, KEY_Z]
            == seq(26, i => i)
    ensures [KEY_0, KEY_1, KEY_2, KEY_3, KEY_4, KEY_5, KEY_6, KEY_7, KEY_8, KEY_9] == seq(10, i => KEY_Z + 1 + i)
    ensures KEY_RCLICK == KEY_COUNT - 1 && KEY_LCLICK == KEY_COUNT - 2
  {
  }

  /** Windows virtual-key codes 65..90 are the letters in order, and no
      other code maps to a letter. */
  lemma WindowsLetters(code: int)
    ensures 65 <= code <= 90 ==> WindowsKeyMap(code) == Some(KEY_A + (code - 65))
    ensures WindowsKeyMap(code).Some? && WindowsKeyMap(code).value <= KEY_Z ==> 65 <= code <= 90
  {
  }

  /** Windows virtual-key codes 48..57 are the digits 0..9 in order, and no
      other code maps to a digit. */
  lemma WindowsDigits(code: int)
    ensures 48 <= code <= 57 ==> WindowsKeyMap(code) == Some(KEY_0 + (code - 48))
    ensures WindowsKeyMap(code).Some? && KEY_0 <= WindowsKeyMap(code).value <= KEY_9 ==> 48 <= code <= 57
  {
  }

  /** Windows virtual-key codes 112..123 are F1..F12 in order. */
  lemma WindowsFunctionKeys(code: int)
    ensures 112 <= code <= 123 ==> WindowsKeyMap(code) == Some(KEY_F1 + (code - 112))
    ensures WindowsKeyMap(code).Some? && KEY_F1 <= WindowsKeyMap(code).value <= KEY_F12 ==> 112 <= code <= 123
  {
  }

  /** The macOS table lists 65 and 75 twice; the first entries win, so 65 is
      NUMPAD9 and 75 is NUMPAD1, and neither DECIMAL nor DIVIDE is reachable. */
  lemma MacRepeatedCodes()
    ensures MacKeyMap(65) == Some(KEY_NUMPAD9) && MacKeyMap(75) == Some(KEY_NUMPAD1)
    ensures forall code :: MacKeyMap(code) != Some(KEY_DECIMAL) && MacKeyMap(code) != Some(KEY_DIVIDE)
  {
  }

  /** No platform table maps any code to a mouse-button key. */
  lemma NoCodeIsAClick(code: int)
    ensures WindowsKeyMap(code) != Some(KEY_LCLICK) && WindowsKeyMap(code) != Some(KEY_RCLICK)
    ensures MacKeyMap(code) != Some(KEY_LCLICK) && MacKeyMap(code) != Some(KEY_RCLICK)
    ensures LinuxKeyMap(code) != Some(KEY_LCLICK) && LinuxKeyMap(code) != Some(KEY_RCLICK)
  {
  }
}

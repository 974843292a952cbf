/**
  Keyboard translation of the Win32 graphics window: the fixed virtual-key to
  engine-key table, the numlock-dependent keypad remapping and the modifier
  logic of `adaptKey`.

  Virtual-key codes are the values of the Win32 `VK_*` constants; engine key
  symbols are the values of the engine's `KeySymbol` enumeration (which follow
  the X11 keysym numbering). Every operating-system query that `adaptKey` makes
  (the scan code to virtual key translation, the keyboard state, the ASCII
  translation) is a parameter.
*/
module Win32Keyboard {
  import opened Common

  // ---------------------------------------------------------------------------
  // Win32 virtual-key codes
  // ---------------------------------------------------------------------------

  const VK_BACK: int := 0x08
  const VK_TAB: int := 0x09
  const VK_CLEAR: int := 0x0C
  const VK_RETURN: int := 0x0D
  const VK_SHIFT: int := 0x10
  const VK_CONTROL: int := 0x11
  const VK_MENU: int := 0x12
  const VK_PAUSE: int := 0x13
  const VK_CAPITAL: int := 0x14
  const VK_ESCAPE: int := 0x1B
  const VK_SPACE: int := 0x20
  const VK_PRIOR: int := 0x21
  const VK_NEXT: int := 0x22
  const VK_END: int := 0x23
  const VK_HOME: int := 0x24
  const VK_LEFT: int := 0x25
  const VK_UP: int := 0x26
  const VK_RIGHT: int := 0x27
  const VK_DOWN: int := 0x28
  const VK_SNAPSHOT: int := 0x2C
  const VK_INSERT: int := 0x2D
  const VK_DELETE: int := 0x2E
  const VK_LWIN: int := 0x5B
  const VK_RWIN: int := 0x5C
  const VK_APPS: int := 0x5D
  const VK_NUMPAD0: int := 0x60
  const VK_NUMPAD1: int := 0x61
  const VK_NUMPAD2: int := 0x62
  const VK_NUMPAD3: int := 0x63
  const VK_NUMPAD4: int := 0x64
  const VK_NUMPAD5: int := 0x65
  const VK_NUMPAD6: int := 0x66
  const VK_NUMPAD7: int := 0x67
  const VK_NUMPAD8: int := 0x68
  const VK_NUMPAD9: int := 0x69
  const VK_MULTIPLY: int := 0x6A
  const VK_ADD: int := 0x6B
  const VK_SUBTRACT: int := 0x6D
  const VK_DECIMAL: int := 0x6E
  const VK_DIVIDE: int := 0x6F
  const VK_F1: int := 0x70
  const VK_F2: int := 0x71
  const VK_F3: int := 0x72
  const VK_F4: int := 0x73
  const VK_F5: int := 0x74
  const VK_F6: int := 0x75
  const VK_F7: int := 0x76
  const VK_F8: int := 0x77
  const VK_F9: int := 0x78
  const VK_F10: int := 0x79
  const VK_F11: int := 0x7A
  const VK_F12: int := 0x7B
  const VK_NUMLOCK: int := 0x90
  const VK_SCROLL: int := 0x91
  const VK_LSHIFT: int := 0xA0
  const VK_RSHIFT: int := 0xA1
  const VK_LCONTROL: int := 0xA2
  const VK_RCONTROL: int := 0xA3
  const VK_LMENU: int := 0xA4
  const VK_RMENU: int := 0xA5

  // ---------------------------------------------------------------------------
  // Engine key symbols
  // ---------------------------------------------------------------------------

  const KEY_Space: int := 0x20
  const KEY_Quote: int := 0x27
  const KEY_Comma: int := 0x2C
  const KEY_Minus: int := 0x2D
  const KEY_Period: int := 0x2E
  const KEY_Slash: int := 0x2F
  const KEY_Semicolon: int := 0x3B
  const KEY_Equals: int := 0x3D
  const KEY_Leftbracket: int := 0x5B
  const KEY_Backslash: int := 0x5C
  const KEY_Rightbracket: int := 0x5D
  const KEY_Backquote: int := 0x60
  const KEY_BackSpace: int := 0xFF08
  const KEY_Tab: int := 0xFF09
  const KEY_Clear: int := 0xFF0B
  const KEY_Return: int := 0xFF0D
  const KEY_Pause: int := 0xFF13
  const KEY_Scroll_Lock: int := 0xFF14
  const KEY_Escape: int := 0xFF1B
  const KEY_Home: int := 0xFF50
  const KEY_Left: int := 0xFF51
  const KEY_Up: int := 0xFF52
  const KEY_Right: int := 0xFF53
  const KEY_Down: int := 0xFF54
  const KEY_Page_Up: int := 0xFF55
  const KEY_Page_Down: int := 0xFF56
  const KEY_End: int := 0xFF57
  const KEY_Print: int := 0xFF61
  const KEY_Insert: int := 0xFF63
  const KEY_Menu: int := 0xFF67
  const KEY_Num_Lock: int := 0xFF7F
  const KEY_KP_Enter: int := 0xFF8D
  const KEY_KP_Home: int := 0xFF95
  const KEY_KP_Left: int := 0xFF96
  const KEY_KP_Up: int := 0xFF97
  const KEY_KP_Right: int := 0xFF98
  const KEY_KP_Down: int := 0xFF99
  const KEY_KP_Page_Up: int := 0xFF9A
  const KEY_KP_Page_Down: int := 0xFF9B
  const KEY_KP_End: int := 0xFF9C
  const KEY_KP_Begin: int := 0xFF9D
  const KEY_KP_Insert: int := 0xFF9E
  const KEY_KP_Delete: int := 0xFF9F
  const KEY_KP_Multiply: int := 0xFFAA
  const KEY_KP_Add: int := 0xFFAB
  const KEY_KP_Subtract: int := 0xFFAD
  const KEY_KP_Decimal: int := 0xFFAE
  const KEY_KP_Divide: int := 0xFFAF
  const KEY_KP_0: int := 0xFFB0
  const KEY_KP_9: int := 0xFFB9
  const KEY_F1: int := 0xFFBE
  const KEY_F2: int := 0xFFBF
  const KEY_F3: int := 0xFFC0
  const KEY_F4: int := 0xFFC1
  const KEY_F5: int := 0xFFC2
  const KEY_F6: int := 0xFFC3
  const KEY_F7: int := 0xFFC4
  const KEY_F8: int := 0xFFC5
  const KEY_F9: int := 0xFFC6
  const KEY_F10: int := 0xFFC7
  const KEY_F11: int := 0xFFC8
  const KEY_F12: int := 0xFFC9
  const KEY_Shift_L: int := 0xFFE1
  const KEY_Shift_R: int := 0xFFE2
  const KEY_Control_L: int := 0xFFE3
  const KEY_Control_R: int := 0xFFE4
  const KEY_Caps_Lock: int := 0xFFE5
  const KEY_Alt_L: int := 0xFFE9
  const KEY_Alt_R: int := 0xFFEA
  const KEY_Super_L: int := 0xFFEB
  const KEY_Super_R: int := 0xFFEC
  const KEY_Delete: int := 0xFFFF

  // ---------------------------------------------------------------------------
  // Engine modifier-key mask bits
  // ---------------------------------------------------------------------------

  const MODKEY_LEFT_SHIFT: bv32 := 0x0001
  const MODKEY_RIGHT_SHIFT: bv32 := 0x0002
  const MODKEY_LEFT_CTRL: bv32 := 0x0004
  const MODKEY_RIGHT_CTRL: bv32 := 0x0008
  const MODKEY_LEFT_ALT: bv32 := 0x0010
  const MODKEY_RIGHT_ALT: bv32 := 0x0020
  const MODKEY_NUM_LOCK: bv32 := 0x1000
  const MODKEY_CAPS_LOCK: bv32 := 0x2000

  /** The extended-key bit (bit 24) of a keyboard message's lParam: set for the right-hand keys. */
  const EXTENDED_KEY_BIT: bv32 := 0x0100_0000

  // ---------------------------------------------------------------------------
  // The table of Win32KeyboardMap
  // ---------------------------------------------------------------------------

  /**
    The fixed table that the keyboard map's constructor fills, entry by entry and in
    the same order: the value stored for a virtual key, or None for a key the table
    does not hold.
  */
  function KeyTable(key: int): (r: Option<int>)
  {
    if key == VK_ESCAPE then Some(KEY_Escape)
    else if key == VK_F1 then Some(KEY_F1)
    else if key == VK_F2 then Some(KEY_F2)
    else if key == VK_F3 then Some(KEY_F3)
    else if key == VK_F4 then Some(KEY_F4)
    else if key == VK_F5 then Some(KEY_F5)
    else if key == VK_F6 then Some(KEY_F6)
    else if key == VK_F7 then Some(KEY_F7)
    else if key == VK_F8 then Some(KEY_F8)
    else if key == VK_F9 then Some(KEY_F9)
    else if key == VK_F10 then Some(KEY_F10)
    else if key == VK_F11 then Some(KEY_F11)
    else if key == VK_F12 then Some(KEY_F12)
    else if key == 0xC0 then Some(KEY_Backquote)
    else if key == 0x30 then Some(0x30)
    else if key == 0x31 then Some(0x31)
    else if key == 0x32 then Some(0x32)
    else if key == 0x33 then Some(0x33)
    else if key == 0x34 then Some(0x34)
    else if key == 0x35 then Some(0x35)
    else if key == 0x36 then Some(0x36)
    else if key == 0x37 then Some(0x37)
    else if key == 0x38 then Some(0x38)
    else if key == 0x39 then Some(0x39)
    else if key == 0xBD then Some(KEY_Minus)
    else if key == 0xBB then Some(KEY_Equals)
    else if key == VK_BACK then Some(KEY_BackSpace)
    else if key == VK_TAB then Some(KEY_Tab)
    else if key == 0x41 then Some(0x61)
    else if key == 0x42 then Some(0x62)
    else if key == 0x43 then Some(0x63)
    else if key == 0x44 then Some(0x64)
    else if key == 0x45 then Some(0x65)
    else if key == 0x46 then Some(0x66)
    else if key == 0x47 then Some(0x67)
    else if key == 0x48 then Some(0x68)
    else if key == 0x49 then Some(0x69)
    else if key == 0x4A then Some(0x6A)
    else if key == 0x4B then Some(0x6B)
    else if key == 0x4C then Some(0x6C)
    else if key == 0x4D then Some(0x6D)
    else if key == 0x4E then Some(0x6E)
    else if key == 0x4F then Some(0x6F)
    else if key == 0x50 then Some(0x70)
    else if key == 0x51 then Some(0x71)
    else if key == 0x52 then Some(0x72)
    else if key == 0x53 then Some(0x73)
    else if key == 0x54 then Some(0x74)
    else if key == 0x55 then Some(0x75)
    else if key == 0x56 then Some(0x76)
    else if key == 0x57 then Some(0x77)
    else if key == 0x58 then Some(0x78)
    else if key == 0x59 then Some(0x79)
    else if key == 0x5A then Some(0x7A)
    else if key == 0xDB then Some(KEY_Leftbracket)
    else if key == 0xDD then Some(KEY_Rightbracket)
    else if key == 0xDC then Some(KEY_Backslash)
    else if key == VK_CAPITAL then Some(KEY_Caps_Lock)
    else if key == 0xBA then Some(KEY_Semicolon)
    else if key == 0xDE then Some(KEY_Quote)
    else if key == VK_RETURN then Some(KEY_Return)
    else if key == VK_LSHIFT then Some(KEY_Shift_L)
    else if key == 0xBC then Some(KEY_Comma)
    else if key == 0xBE then Some(KEY_Period)
    else if key == 0xBF then Some(KEY_Slash)
    else if key == VK_RSHIFT then Some(KEY_Shift_R)
    else if key == VK_LCONTROL then Some(KEY_Control_L)
    else if key == VK_LWIN then Some(KEY_Super_L)
    else if key == VK_SPACE then Some(KEY_Space)
    else if key == VK_LMENU then Some(KEY_Alt_L)
    else if key == VK_RMENU then Some(KEY_Alt_R)
    else if key == VK_RWIN then Some(KEY_Super_R)
    else if key == VK_APPS then Some(KEY_Menu)
    else if key == VK_RCONTROL then Some(KEY_Control_R)
    else if key == VK_SNAPSHOT then Some(KEY_Print)
    else if key == VK_SCROLL then Some(KEY_Scroll_Lock)
    else if key == VK_PAUSE then Some(KEY_Pause)
    else if key == VK_HOME then Some(KEY_Home)
    else if key == VK_PRIOR then Some(KEY_Page_Up)
    else if key == VK_END then Some(KEY_End)
    else if key == VK_NEXT then Some(KEY_Page_Down)
    else if key == VK_DELETE then Some(KEY_Delete)
    else if key == VK_INSERT then Some(KEY_Insert)
    else if key == VK_LEFT then Some(KEY_Left)
    else if key == VK_UP then Some(KEY_Up)
    else if key == VK_RIGHT then Some(KEY_Right)
    else if key == VK_DOWN then Some(KEY_Down)
    else if key == VK_NUMLOCK then Some(KEY_Num_Lock)
    else if key == VK_DIVIDE then Some(KEY_KP_Divide)
    else if key == VK_MULTIPLY then Some(KEY_KP_Multiply)
    else if key == VK_SUBTRACT then Some(KEY_KP_Subtract)
    else if key == VK_ADD then Some(KEY_KP_Add)
    else if key == VK_NUMPAD7 then Some(KEY_KP_Home)
    else if key == VK_NUMPAD8 then Some(KEY_KP_Up)
    else if key == VK_NUMPAD9 then Some(KEY_KP_Page_Up)
    else if key == VK_NUMPAD4 then Some(KEY_KP_Left)
    else if key == VK_NUMPAD5 then Some(KEY_KP_Begin)
    else if key == VK_NUMPAD6 then Some(KEY_KP_Right)
    else if key == VK_NUMPAD1 then Some(KEY_KP_End)
    else if key == VK_NUMPAD2 then Some(KEY_KP_Down)
    else if key == VK_NUMPAD3 then Some(KEY_KP_Page_Down)
    else if key == VK_NUMPAD0 then Some(KEY_KP_Insert)
    else if key == VK_DECIMAL then Some(KEY_KP_Delete)
    else if key == VK_CLEAR then Some(KEY_Clear)
    else None
  }

  /** `remapKey`: look the key up in the table; a key the table does not know is returned as it is. */
  function RemapKey(key: int): (r: int)
  {
    match KeyTable(key)
    case Some(symbol) => symbol
    case None => key
  }

  /** True for the eleven keypad keys whose meaning depends on numlock. */
  predicate IsNumlockKey(key: int)
  {
    VK_NUMPAD0 <= key <= VK_NUMPAD9 || key == VK_DECIMAL
  }

  /**
    `remapWin32Key`: with numlock active the keypad digits become the keypad
    digit symbols and the keypad decimal becomes the keypad decimal symbol;
    everything else goes through the table. The numlock toggle bit is a parameter.
  */
  function RemapWin32Key(key: int, numlockActive: bool): (r: int)
    ensures numlockActive && VK_NUMPAD0 <= key <= VK_NUMPAD9 ==> KEY_KP_0 <= r <= KEY_KP_9
    ensures numlockActive && VK_NUMPAD0 <= key <= VK_NUMPAD9 ==> r - KEY_KP_0 == key - VK_NUMPAD0
    ensures numlockActive && key == VK_DECIMAL ==> r == KEY_KP_Decimal
    ensures !numlockActive || !IsNumlockKey(key) ==> r == RemapKey(key)
  {
    if numlockActive && VK_NUMPAD0 <= key <= VK_NUMPAD9 then key - VK_NUMPAD0 + KEY_KP_0
    else if numlockActive && key == VK_DECIMAL then KEY_KP_Decimal
    else RemapKey(key)
  }

  /** The keypad navigation symbols that the table gives the keypad keys when numlock is off. */
  predicate IsKeypadNavigation(sym: int)
  {
    KEY_KP_Home <= sym <= KEY_KP_Delete
  }

  /** Numlock matters for exactly the eleven keypad keys: each of them means something different with and without it. */
  lemma NumlockChangesExactlyKeypad(key: int)
    ensures RemapWin32Key(key, true) != RemapWin32Key(key, false) <==> IsNumlockKey(key)
    ensures IsNumlockKey(key) ==> IsKeypadNavigation(RemapWin32Key(key, false))
  {
    if IsNumlockKey(key) {
      assert key in {VK_NUMPAD0, VK_NUMPAD1, VK_NUMPAD2, VK_NUMPAD3, VK_NUMPAD4,
                     VK_NUMPAD5, VK_NUMPAD6, VK_NUMPAD7, VK_NUMPAD8, VK_NUMPAD9, VK_DECIMAL};
    }
  }

  /** Letter keys become the lower-case letter symbols. */
  lemma LetterKeys(key: int)
    requires 'A' as int <= key <= 'Z' as int
    ensures RemapWin32Key(key, true) == key + 0x20
  {
    if key <= 0x47 {
      LetterKeysAToG(key);
    } else if key <= 0x4E {
      LetterKeysHToN(key);
    } else if key <= 0x55 {
      LetterKeysOToU(key);
    } else {
      LetterKeysVToZ(key);
    }
  }

  /** `LetterKeys` for the letters A to G. */
  lemma LetterKeysAToG(key: int)
    requires 0x41 <= key <= 0x47
    ensures RemapWin32Key(key, true) == key + 0x20
  {
    assert key == 0x41 || key == 0x42 || key == 0x43 || key == 0x44 || key == 0x45 || key == 0x46 || key == 0x47;
  }

  /** `LetterKeys` for the letters H to N. */
  lemma LetterKeysHToN(key: int)
    requires 0x48 <= key <= 0x4E
    ensures RemapWin32Key(key, true) == key + 0x20
  {
    assert key == 0x48 || key == 0x49 || key == 0x4A || key == 0x4B || key == 0x4C || key == 0x4D || key == 0x4E;
  }

  /** `LetterKeys` for the letters O to U. */
  lemma LetterKeysOToU(key: int)
    requires 0x4F <= key <= 0x55
    ensures RemapWin32Key(key, true) == key + 0x20
  {
    assert key == 0x4F || key == 0x50 || key == 0x51 || key == 0x52 || key == 0x53 || key == 0x54 || key == 0x55;
  }

  /** `LetterKeys` for the letters V to Z. */
  lemma LetterKeysVToZ(key: int)
    requires 0x56 <= key <= 0x5A
    ensures RemapWin32Key(key, true) == key + 0x20
  {
    assert key == 0x56 || key == 0x57 || key == 0x58 || key == 0x59 || key == 0x5A;
  }

  /** Digit keys of the main block map to themselves. */
  lemma DigitKeys(key: int)
    requires '0' as int <= key <= '9' as int
    ensures RemapWin32Key(key, false) == key
  {
    assert key == 0x30 || key == 0x31 || key == 0x32 || key == 0x33 || key == 0x34
        || key == 0x35 || key == 0x36 || key == 0x37 || key == 0x38 || key == 0x39;
  }

  /** A key the table does not know passes through unchanged, numlock or not, unless it is a keypad key. */
  lemma UnknownKeyPassesThrough(key: int, numlockActive: bool)
    requires KeyTable(key).None?
    ensures RemapWin32Key(key, numlockActive) == key
  {
    assert VK_NUMPAD0 <= key <= VK_NUMPAD9 ==>
      key in {VK_NUMPAD0, VK_NUMPAD1, VK_NUMPAD2, VK_NUMPAD3, VK_NUMPAD4,
              VK_NUMPAD5, VK_NUMPAD6, VK_NUMPAD7, VK_NUMPAD8, VK_NUMPAD9};
  }

  // ---------------------------------------------------------------------------
  // adaptKey
  // ---------------------------------------------------------------------------

  /** The two lock bits of the keyboard state that `adaptKey` reads. */
  datatype KeyboardState = KeyboardState(capsLockToggled: bool, numLockToggled: bool)

  /** What `adaptKey` writes to its three reference parameters. */
  datatype KeyInfo = KeyInfo(keySymbol: int, modifierMask: bv32, unmodifiedKeySymbol: int)

  /** The side-specific virtual key and modifier bit that `adaptKey`'s switch selects. */
  function SideSelection(mappedKey: int, wParam: int, rightSide: bool): (r: (int, bv32))
    ensures r.1 & !0x3F == 0
    ensures r.1 in {0, MODKEY_LEFT_SHIFT, MODKEY_RIGHT_SHIFT, MODKEY_LEFT_CTRL, MODKEY_RIGHT_CTRL,
                    MODKEY_LEFT_ALT, MODKEY_RIGHT_ALT}
    ensures r.1 == 0 <==> mappedKey !in {VK_LSHIFT, VK_RSHIFT, VK_CONTROL, VK_LCONTROL, VK_MENU, VK_LMENU}
    ensures r.1 == 0 ==> r.0 == wParam
  {
    if mappedKey == VK_LSHIFT then (mappedKey, MODKEY_LEFT_SHIFT)
    else if mappedKey == VK_RSHIFT then (mappedKey, MODKEY_RIGHT_SHIFT)
    else if mappedKey == VK_CONTROL || mappedKey == VK_LCONTROL then
      (if rightSide then VK_RCONTROL else VK_LCONTROL,
       if rightSide then MODKEY_RIGHT_CTRL else MODKEY_LEFT_CTRL)
    else if mappedKey == VK_MENU || mappedKey == VK_LMENU then
      (if rightSide then VK_RMENU else VK_LMENU,
       if rightSide then MODKEY_RIGHT_ALT else MODKEY_LEFT_ALT)
    else (wParam, 0)
  }

  /** The caps-lock and num-lock bits of the modifier mask, from the toggle bits of the keyboard state. */
  function LockBits(keyboard: KeyboardState): (m: bv32)
    ensures m & 0x3F == 0
    ensures m & MODKEY_CAPS_LOCK != 0 <==> keyboard.capsLockToggled
    ensures m & MODKEY_NUM_LOCK != 0 <==> keyboard.numLockToggled
  {
    (if keyboard.capsLockToggled then MODKEY_CAPS_LOCK else 0) |
    (if keyboard.numLockToggled then MODKEY_NUM_LOCK else 0)
  }

  /**
    `adaptKey`. Parameters stand for the operating system's answers:
    `mappedKey` is the virtual key that the scan code in bits 16..23 of `lParam`
    translates to (0 when there is none), `keyboard` the keyboard state (None
    when it cannot be read), `ascii` the first character of the ASCII
    translation (None when it produces no character), and `numlockActive` the
    numlock bit read by `remapWin32Key`. `unmodifiedIn` is the value the caller's
    variable holds before the call; the early return leaves it untouched.
  */
  function AdaptKey(wParam: int, lParam: bv32, mappedKey: int, keyboard: Option<KeyboardState>,
                    numlockActive: bool, ascii: Option<int>, unmodifiedIn: int): (k: KeyInfo)
    ensures mappedKey == 0 || keyboard.None? ==> k == KeyInfo(0, 0, unmodifiedIn)
    ensures k.modifierMask & MODKEY_CAPS_LOCK != 0 <==>
              mappedKey != 0 && keyboard.Some? && keyboard.value.capsLockToggled
    ensures k.modifierMask & MODKEY_NUM_LOCK != 0 <==>
              mappedKey != 0 && keyboard.Some? && keyboard.value.numLockToggled
  {
    var rightSide := lParam & EXTENDED_KEY_BIT != 0;
    if mappedKey == 0 || keyboard.None? then KeyInfo(0, 0, unmodifiedIn)
    else
      var (virtualKey, sideBit) := SideSelection(mappedKey, wParam, rightSide);
      var remapped := RemapWin32Key(virtualKey, numlockActive);
      var symbol := if remapped == KEY_Return && rightSide then KEY_KP_Enter else remapped;
      // `(keySymbol & 0xff00) == 0` on the two's-complement symbol: its low 16 bits are below 0x100
      var byteSized := symbol % 0x10000 < 0x100;
      var translated := if byteSized && ascii.Some? then ascii.value else symbol;
      KeyInfo(translated, sideBit | LockBits(keyboard.value), symbol)
  }

  /** Each Shift key keeps its own side: its symbol and that side's modifier bit, and not the other side's. */
  lemma ShiftKeySide(wParam: int, lParam: bv32, mappedKey: int, keyboard: KeyboardState,
                     numlockActive: bool, ascii: Option<int>, unmodifiedIn: int)
    requires mappedKey == VK_LSHIFT || mappedKey == VK_RSHIFT
    ensures var k := AdaptKey(wParam, lParam, mappedKey, Some(keyboard), numlockActive, ascii, unmodifiedIn);
            var left := mappedKey == VK_LSHIFT;
            && k.unmodifiedKeySymbol == (if left then KEY_Shift_L else KEY_Shift_R)
            && k.keySymbol == k.unmodifiedKeySymbol
            && (k.modifierMask & MODKEY_LEFT_SHIFT != 0 <==> left)
            && (k.modifierMask & MODKEY_RIGHT_SHIFT != 0 <==> !left)
  {
  }

  /** The generic and the left control key both become the control key of the side the extended bit names. */
  lemma ControlKeySide(wParam: int, lParam: bv32, mappedKey: int, keyboard: KeyboardState,
                       numlockActive: bool, ascii: Option<int>, unmodifiedIn: int)
    requires mappedKey == VK_CONTROL || mappedKey == VK_LCONTROL
    ensures var k := AdaptKey(wParam, lParam, mappedKey, Some(keyboard), numlockActive, ascii, unmodifiedIn);
            var right := lParam & EXTENDED_KEY_BIT != 0;
            && k.unmodifiedKeySymbol == (if right then KEY_Control_R else KEY_Control_L)
            && k.keySymbol == k.unmodifiedKeySymbol
            && (k.modifierMask & MODKEY_RIGHT_CTRL != 0 <==> right)
            && (k.modifierMask & MODKEY_LEFT_CTRL != 0 <==> !right)
  {
  }

  /** The same for the generic and the left Alt key. */
  lemma AltKeySide(wParam: int, lParam: bv32, mappedKey: int, keyboard: KeyboardState,
                   numlockActive: bool, ascii: Option<int>, unmodifiedIn: int)
    requires mappedKey == VK_MENU || mappedKey == VK_LMENU
    ensures var k := AdaptKey(wParam, lParam, mappedKey, Some(keyboard), numlockActive, ascii, unmodifiedIn);
            var right := lParam & EXTENDED_KEY_BIT != 0;
            && k.unmodifiedKeySymbol == (if right then KEY_Alt_R else KEY_Alt_L)
            && k.keySymbol == k.unmodifiedKeySymbol
            && (k.modifierMask & MODKEY_RIGHT_ALT != 0 <==> right)
            && (k.modifierMask & MODKEY_LEFT_ALT != 0 <==> !right)
  {
  }

  /** The Return key with the extended bit set (the keypad Enter) becomes the keypad Enter symbol. */
  lemma KeypadEnter(lParam: bv32, mappedKey: int, keyboard: KeyboardState,
                    numlockActive: bool, ascii: Option<int>, unmodifiedIn: int)
    requires mappedKey !in {0, VK_LSHIFT, VK_RSHIFT, VK_CONTROL, VK_LCONTROL, VK_MENU, VK_LMENU}
    ensures var k := AdaptKey(VK_RETURN, lParam, mappedKey, Some(keyboard), numlockActive, ascii, unmodifiedIn);
            k.unmodifiedKeySymbol == (if lParam & EXTENDED_KEY_BIT != 0 then KEY_KP_Enter else KEY_Return)
  {
    assert RemapWin32Key(VK_RETURN, numlockActive) == KEY_Return;
  }

  /** For any other key the message's own virtual key is translated and no side bit is set. */
  lemma OrdinaryKey(wParam: int, lParam: bv32, mappedKey: int, keyboard: KeyboardState,
                    numlockActive: bool, ascii: Option<int>, unmodifiedIn: int)
    requires mappedKey !in {0, VK_LSHIFT, VK_RSHIFT, VK_CONTROL, VK_LCONTROL, VK_MENU, VK_LMENU}
    requires RemapWin32Key(wParam, numlockActive) != KEY_Return
    ensures var k := AdaptKey(wParam, lParam, mappedKey, Some(keyboard), numlockActive, ascii, unmodifiedIn);
            && k.unmodifiedKeySymbol == RemapWin32Key(wParam, numlockActive)
            && k.modifierMask & 0x3F == 0
  {
    var locks := LockBits(keyboard);
    assert (0 | locks) & 0x3F == 0;
  }
}

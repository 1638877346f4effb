/** PS/2 Scan Code Set 2 make codes and prefix bytes (ps2demo/ps2_scancodes.h). */
module Scancodes {

  /** One byte on the PS/2 wire. */
  type Byte = x: int | 0 <= x < 0x100

  // Letters
  const A: Byte := 0x1C
  const B: Byte := 0x32
  const C: Byte := 0x21
  const D: Byte := 0x23
  const E: Byte := 0x24
  const F: Byte := 0x2B
  const G: Byte := 0x34
  const H: Byte := 0x33
  const I: Byte := 0x43
  const J: Byte := 0x3B
  const K: Byte := 0x42
  const L: Byte := 0x4B
  const M: Byte := 0x3A
  const N: Byte := 0x31
  const O: Byte := 0x44
  const P: Byte := 0x4D
  const Q: Byte := 0x15
  const R: Byte := 0x2D
  const S: Byte := 0x1B
  const T: Byte := 0x2C
  const U: Byte := 0x3C
  const V: Byte := 0x2A
  const W: Byte := 0x1D
  const X: Byte := 0x22
  const Y: Byte := 0x35
  const Z: Byte := 0x1A

  // Digits
  const Digit1: Byte := 0x16
  const Digit2: Byte := 0x1E
  const Digit3: Byte := 0x26
  const Digit4: Byte := 0x25
  const Digit5: Byte := 0x2E
  const Digit6: Byte := 0x36
  const Digit7: Byte := 0x3D
  const Digit8: Byte := 0x3E
  const Digit9: Byte := 0x46
  const Digit0: Byte := 0x45

  // Function keys; F13-F24 are the Shift+F1..F12 codes some keyboards use
  const F1: Byte := 0x05
  const F2: Byte := 0x06
  const F3: Byte := 0x04
  const F4: Byte := 0x0C
  const F5: Byte := 0x03
  const F6: Byte := 0x0B
  const F7: Byte := 0x83
  const F8: Byte := 0x0A
  const F9: Byte := 0x01
  const F10: Byte := 0x09
  const F11: Byte := 0x78
  const F12: Byte := 0x07
  const F13: Byte := 0x08
  const F14: Byte := 0x10
  const F15: Byte := 0x18
  const F16: Byte := 0x20
  const F17: Byte := 0x28
  const F18: Byte := 0x30
  const F19: Byte := 0x38
  const F20: Byte := 0x40
  const F21: Byte := 0x48
  const F22: Byte := 0x50
  const F23: Byte := 0x57
  const F24: Byte := 0x5F

  // Punctuation
  const Grave: Byte := 0x0E
  const Minus: Byte := 0x4E
  const Equal: Byte := 0x55
  const Backslash: Byte := 0x5D
  const LBracket: Byte := 0x54
  const RBracket: Byte := 0x5B
  const Semicolon: Byte := 0x4C
  const Quote: Byte := 0x52
  const Comma: Byte := 0x41
  const Dot: Byte := 0x49
  const Slash: Byte := 0x4A

  // Control keys; the right-hand Alt, Ctrl and Menu are sent after E0
  const Esc: Byte := 0x76
  const Backspace: Byte := 0x66
  const Tab: Byte := 0x0D
  const Caps: Byte := 0x58
  const LShift: Byte := 0x12
  const LCtrl: Byte := 0x14
  const LAlt: Byte := 0x11
  const Space: Byte := 0x29
  const RAlt: Byte := 0x11
  const RCtrl: Byte := 0x14
  const RShift: Byte := 0x59
  const Enter: Byte := 0x5A
  const Menu: Byte := 0x2F

  // Navigation cluster (sent after E0)
  const Insert: Byte := 0x70
  const Home: Byte := 0x6C
  const PgUp: Byte := 0x7D
  const Delete: Byte := 0x71
  const End: Byte := 0x69
  const PgDn: Byte := 0x7A

  // Arrows (sent after E0)
  const Up: Byte := 0x75
  const Down: Byte := 0x72
  const Left: Byte := 0x6B
  const Right: Byte := 0x74

  // Keypad; keypad slash and enter are sent after E0
  const NumLock: Byte := 0x77
  const KpSlash: Byte := 0x4A
  const KpAsterisk: Byte := 0x7C
  const KpMinus: Byte := 0x7B
  const KpPlus: Byte := 0x79
  const KpEnter: Byte := 0x5A
  const KpDot: Byte := 0x71
  const Kp0: Byte := 0x70
  const Kp1: Byte := 0x69
  const Kp2: Byte := 0x72
  const Kp3: Byte := 0x7A
  const Kp4: Byte := 0x6B
  const Kp5: Byte := 0x73
  const Kp6: Byte := 0x74
  const Kp7: Byte := 0x6C
  const Kp8: Byte := 0x75
  const Kp9: Byte := 0x7D

  // Lock keys, Print Screen and Pause
  const Scroll: Byte := 0x7E
  const PScreen: Byte := 0x7C
  const Pause: Byte := 0x77

  // GUI keys (sent after E0)
  const LGui: Byte := 0x1F
  const RGui: Byte := 0x27

  // Multimedia keys (sent after E0)
  const Mute: Byte := 0x23
  const VolumeDown: Byte := 0x21
  const VolumeUp: Byte := 0x32
  const MediaNext: Byte := 0x4D
  const MediaPrev: Byte := 0x15
  const MediaStop: Byte := 0x3B
  const MediaPlay: Byte := 0x34
  const MediaSelect: Byte := 0x50

  // Browser keys (sent after E0)
  const WwwSearch: Byte := 0x10
  const WwwHome: Byte := 0x3A
  const WwwBack: Byte := 0x38
  const WwwForward: Byte := 0x30
  const WwwStop: Byte := 0x28
  const WwwRefresh: Byte := 0x20
  const WwwFavorites: Byte := 0x18

  // Application keys (sent after E0)
  const AppMail: Byte := 0x48
  const AppCalc: Byte := 0x2B
  const AppMyComputer: Byte := 0x40

  // ACPI power keys (sent after E0)
  const Power: Byte := 0x37
  const Sleep: Byte := 0x3F
  const Wake: Byte := 0x5E

  // International and language keys
  const Intl1: Byte := 0x51
  const Intl2: Byte := 0x13
  const Intl3: Byte := 0x6A
  const Intl4: Byte := 0x64
  const Intl5: Byte := 0x67
  const Lang1: Byte := 0xF2
  const Lang2: Byte := 0xF1

  // Prefix bytes
  const PrefixE0: Byte := 0xE0
  const PrefixE1: Byte := 0xE1
  const PrefixF0: Byte := 0xF0

  // The key make codes the header defines, in groups. Navigation also holds
  // the arrows, System the lock keys, Pause and the GUI keys, and
  // Media the multimedia, browser, application and ACPI keys.
  const Letters: set<Byte> := {
    A, B, C, D, E, F, G, H, I, J, K, L, M, N, O, P, Q, R, S, T, U, V, W, X, Y, Z
  }
  const Digits: set<Byte> := {
    Digit1, Digit2, Digit3, Digit4, Digit5, Digit6, Digit7, Digit8, Digit9, Digit0
  }
  const FunctionKeys: set<Byte> := {
    F1, F2, F3, F4, F5, F6, F7, F8, F9, F10, F11, F12,
    F13, F14, F15, F16, F17, F18, F19, F20, F21, F22, F23, F24
  }
  const Punctuation: set<Byte> := {
    Grave, Minus, Equal, Backslash, LBracket, RBracket, Semicolon, Quote, Comma, Dot, Slash
  }
  const ControlKeys: set<Byte> := {
    Esc, Backspace, Tab, Caps, LShift, LCtrl, LAlt, Space, RAlt, RCtrl, RShift, Enter, Menu
  }
  const NavigationKeys: set<Byte> := {
    Insert, Home, PgUp, Delete, End, PgDn, Up, Down, Left, Right
  }
  const KeypadKeys: set<Byte> := {
    NumLock, KpSlash, KpAsterisk, KpMinus, KpPlus, KpEnter, KpDot,
    Kp0, Kp1, Kp2, Kp3, Kp4, Kp5, Kp6, Kp7, Kp8, Kp9
  }
  const SystemKeys: set<Byte> := {
    Scroll, PScreen, Pause, LGui, RGui
  }
  const MediaKeys: set<Byte> := {
    Mute, VolumeDown, VolumeUp, MediaNext, MediaPrev, MediaStop, MediaPlay, MediaSelect,
    WwwSearch, WwwHome, WwwBack, WwwForward, WwwStop, WwwRefresh, WwwFavorites,
    AppMail, AppCalc, AppMyComputer, Power, Sleep, Wake
  }
  const InternationalKeys: set<Byte> := {
    Intl1, Intl2, Intl3, Intl4, Intl5, Lang1, Lang2
  }

  /** Holds of exactly the key make codes the header defines. */
  predicate IsKeyCode(b: Byte) {
    || b in Letters || b in Digits || b in FunctionKeys || b in Punctuation || b in ControlKeys
    || b in NavigationKeys || b in KeypadKeys || b in SystemKeys || b in MediaKeys || b in InternationalKeys
  }

  /** The three bytes that introduce a multi-byte sequence rather than name a key. */
  predicate IsPrefix(b: Byte) {
    b == PrefixE0 || b == PrefixE1 || b == PrefixF0
  }

  /** No key make code is 0, so 0 can stand for "no PS/2 equivalent". */
  lemma KeyCodesNonzero()
    ensures forall b :: IsKeyCode(b) ==> b != 0
  {
  }

  /** No key make code can be mistaken for a prefix byte. */
  lemma KeyCodesAreNotPrefixes()
    ensures forall b :: IsKeyCode(b) ==> !IsPrefix(b)
  {
  }

  /** The only make codes at or above 0x80 are F7, Lang1 and Lang2. */
  lemma HighKeyCodes()
    ensures forall b :: IsKeyCode(b) && b >= 0x80 ==> b in {F7, Lang1, Lang2}
    ensures F7 == 0x83 && Lang1 == 0xF2 && Lang2 == 0xF1
  {
  }

  /** Codes shared by keys that differ only in the E0 prefix. */
  lemma SharedCodes()
    ensures RAlt == LAlt == 0x11 && RCtrl == LCtrl == 0x14
    ensures KpEnter == Enter == 0x5A && KpSlash == Slash == 0x4A
    ensures Insert == Kp0 == 0x70 && Delete == KpDot == 0x71 && Home == Kp7 == 0x6C
    ensures End == Kp1 && PgUp == Kp9 && PgDn == Kp3
    ensures Up == Kp8 == 0x75 && Down == Kp2 && Left == Kp4 && Right == Kp6
  {
  }

  /** F13-F24 keep their literal Shift+F1..F12 values. */
  lemma ExtendedFunctionKeys()
    ensures [F13, F14, F15, F16, F17, F18, F19, F20, F21, F22, F23, F24]
         == [0x08, 0x10, 0x18, 0x20, 0x28, 0x30, 0x38, 0x40, 0x48, 0x50, 0x57, 0x5F]
  {
  }
}

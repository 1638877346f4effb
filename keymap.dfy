/**
 * The keycode to Scan Code Set 2 table of the dual-mode keyboard
 * (qmk_to_ps2_scancode in ps2demo/keyboard.c), the keys whose codes need the
 * E0 prefix, and a host-side inverse table proving that no two mapped keys
 * share a (code, prefix) pair.
 */
module Keymap {
  import Scancodes
  import opened Wrappers

  // Keycodes, grouped as the firmware's switch groups them. Constructor
  // names are the QMK KC_ names without their prefix (KC_1 is N1).
  datatype LetterKey = A | B | C | D | E | F | G | H | I | J | K | L | M | N | O | P | Q | R | S | T | U | V | W | X | Y | Z
  datatype NumberKey = N1 | N2 | N3 | N4 | N5 | N6 | N7 | N8 | N9 | N0
  datatype FunctionKey = F1 | F2 | F3 | F4 | F5 | F6 | F7 | F8 | F9 | F10 | F11 | F12 | F13 | F14 | F15 | F16 | F17 | F18 | F19 | F20 | F21 | F22 | F23 | F24
  datatype SymbolKey = Grv | Mins | Eql | Bsls | Lbrc | Rbrc | Scln | Quot | Comm | Dot | Slsh
  datatype ControlKey = Esc | Bspc | Tab | Caps | Lsft | Lctl | Lalt | Spc | Ralt | Rctl | Rsft | Ent | App
  datatype NavigationKey = Ins | Home | Pgup | Del | End | Pgdn
  datatype ArrowKey = Up | Down | Left | Rght
  datatype KeypadKey = Num | Psls | Past | Pmns | Ppls | Pent | Pdot | P0 | P1 | P2 | P3 | P4 | P5 | P6 | P7 | P8 | P9
  datatype LockKey = Scrl | Pscr
  datatype GuiKey = Lgui | Rgui
  datatype MediaKey = Mute | Vold | Volu | Mnxt | Mprv | Mstp | Mply | Msel
  datatype BrowserKey = Wsch | Whom | Wbak | Wfwd | Wstp | Wref | Wfav
  datatype ApplicationKey = Mail | Calc | Mycm
  datatype AcpiKey = Pwr | Slep | Wake
  datatype InternationalKey = Int1 | Int2 | Int3 | Int4 | Int5 | Lng1 | Lng2

  /**
   * A keycode as the firmware receives it: one of the keys the table names,
   * or any other keycode (KC_PAUS among them). QMK gives the named keys
   * distinct 16-bit values, which the firmware's switch relies on.
   */
  datatype Keycode =
    | Letter(LetterKey)
    | Number(NumberKey)
    | Function(FunctionKey)
    | Symbol(SymbolKey)
    | Control(ControlKey)
    | Navigation(NavigationKey)
    | Arrow(ArrowKey)
    | Keypad(KeypadKey)
    | Lock(LockKey)
    | Gui(GuiKey)
    | Media(MediaKey)
    | Browser(BrowserKey)
    | Application(ApplicationKey)
    | Acpi(AcpiKey)
    | International(InternationalKey)
    | Other(code: nat)

  /** What the table yields for one keycode: a make code and whether E0 must precede it. */
  datatype Mapping = Mapping(scancode: Scancodes.Byte, needsE0: bool)

  /** The result for a keycode with no PS/2 equivalent. */
  const Unmapped := Mapping(0, false)

  function Plain(code: Scancodes.Byte): Mapping { Mapping(code, false) }

  function Extended(code: Scancodes.Byte): Mapping { Mapping(code, true) }

  /**
   * The keys whose make and break codes must be preceded by E0: right Alt,
   * right Ctrl and Menu; the whole navigation cluster and the arrows; keypad
   * slash, keypad enter and Print Screen; both GUI keys; every multimedia,
   * browser, application and ACPI key.
   */
  predicate IsExtended(k: Keycode) {
    match k
    case Control(c) => c.Ralt? || c.Rctl? || c.App?
    case Keypad(p) => p.Psls? || p.Pent?
    case Lock(l) => l.Pscr?
    case Navigation(_) | Arrow(_) | Gui(_) | Media(_) | Browser(_) | Application(_) | Acpi(_) => true
    case _ => false
  }

  /** Letters (ps2demo/keyboard.c switch). */
  function LetterCode(key: LetterKey): (m: Mapping)
    ensures m.scancode != 0 && !Scancodes.IsPrefix(m.scancode)
    ensures !m.needsE0
  {
    match key
    case A => Plain(Scancodes.A)
    case B => Plain(Scancodes.B)
    case C => Plain(Scancodes.C)
    case D => Plain(Scancodes.D)
    case E => Plain(Scancodes.E)
    case F => Plain(Scancodes.F)
    case G => Plain(Scancodes.G)
    case H => Plain(Scancodes.H)
    case I => Plain(Scancodes.I)
    case J => Plain(Scancodes.J)
    case K => Plain(Scancodes.K)
    case L => Plain(Scancodes.L)
    case M => Plain(Scancodes.M)
    case N => Plain(Scancodes.N)
    case O => Plain(Scancodes.O)
    case P => Plain(Scancodes.P)
    case Q => Plain(Scancodes.Q)
    case R => Plain(Scancodes.R)
    case S => Plain(Scancodes.S)
    case T => Plain(Scancodes.T)
    case U => Plain(Scancodes.U)
    case V => Plain(Scancodes.V)
    case W => Plain(Scancodes.W)
    case X => Plain(Scancodes.X)
    case Y => Plain(Scancodes.Y)
    case Z => Plain(Scancodes.Z)
  }

  /** Digits (ps2demo/keyboard.c switch). */
  function NumberCode(key: NumberKey): (m: Mapping)
    ensures m.scancode != 0 && !Scancodes.IsPrefix(m.scancode)
    ensures !m.needsE0
  {
    match key
    case N1 => Plain(Scancodes.Digit1)
    case N2 => Plain(Scancodes.Digit2)
    case N3 => Plain(Scancodes.Digit3)
    case N4 => Plain(Scancodes.Digit4)
    case N5 => Plain(Scancodes.Digit5)
    case N6 => Plain(Scancodes.Digit6)
    case N7 => Plain(Scancodes.Digit7)
    case N8 => Plain(Scancodes.Digit8)
    case N9 => Plain(Scancodes.Digit9)
    case N0 => Plain(Scancodes.Digit0)
  }

  /** Function keys (ps2demo/keyboard.c switch). */
  function FunctionCode(key: FunctionKey): (m: Mapping)
    ensures m.scancode != 0 && !Scancodes.IsPrefix(m.scancode)
    ensures !m.needsE0
  {
    match key
    case F1 => Plain(Scancodes.F1)
    case F2 => Plain(Scancodes.F2)
    case F3 => Plain(Scancodes.F3)
    case F4 => Plain(Scancodes.F4)
    case F5 => Plain(Scancodes.F5)
    case F6 => Plain(Scancodes.F6)
    case F7 => Plain(Scancodes.F7)
    case F8 => Plain(Scancodes.F8)
    case F9 => Plain(Scancodes.F9)
    case F10 => Plain(Scancodes.F10)
    case F11 => Plain(Scancodes.F11)
    case F12 => Plain(Scancodes.F12)
    case F13 => Plain(Scancodes.F13)
    case F14 => Plain(Scancodes.F14)
    case F15 => Plain(Scancodes.F15)
    case F16 => Plain(Scancodes.F16)
    case F17 => Plain(Scancodes.F17)
    case F18 => Plain(Scancodes.F18)
    case F19 => Plain(Scancodes.F19)
    case F20 => Plain(Scancodes.F20)
    case F21 => Plain(Scancodes.F21)
    case F22 => Plain(Scancodes.F22)
    case F23 => Plain(Scancodes.F23)
    case F24 => Plain(Scancodes.F24)
  }

  /** Punctuation (ps2demo/keyboard.c switch). */
  function SymbolCode(key: SymbolKey): (m: Mapping)
    ensures m.scancode != 0 && !Scancodes.IsPrefix(m.scancode)
    ensures !m.needsE0
  {
    match key
    case Grv => Plain(Scancodes.Grave)
    case Mins => Plain(Scancodes.Minus)
    case Eql => Plain(Scancodes.Equal)
    case Bsls => Plain(Scancodes.Backslash)
    case Lbrc => Plain(Scancodes.LBracket)
    case Rbrc => Plain(Scancodes.RBracket)
    case Scln => Plain(Scancodes.Semicolon)
    case Quot => Plain(Scancodes.Quote)
    case Comm => Plain(Scancodes.Comma)
    case Dot => Plain(Scancodes.Dot)
    case Slsh => Plain(Scancodes.Slash)
  }

  /** Control keys (ps2demo/keyboard.c switch). */
  function ControlCode(key: ControlKey): (m: Mapping)
    ensures m.scancode != 0 && !Scancodes.IsPrefix(m.scancode)
    ensures m.needsE0 <==> key.Ralt? || key.Rctl? || key.App?
  {
    match key
    case Esc => Plain(Scancodes.Esc)
    case Bspc => Plain(Scancodes.Backspace)
    case Tab => Plain(Scancodes.Tab)
    case Caps => Plain(Scancodes.Caps)
    case Lsft => Plain(Scancodes.LShift)
    case Lctl => Plain(Scancodes.LCtrl)
    case Lalt => Plain(Scancodes.LAlt)
    case Spc => Plain(Scancodes.Space)
    case Ralt => Extended(Scancodes.RAlt)
    case Rctl => Extended(Scancodes.RCtrl)
    case Rsft => Plain(Scancodes.RShift)
    case Ent => Plain(Scancodes.Enter)
    case App => Extended(Scancodes.Menu)
  }

  /** Navigation cluster (ps2demo/keyboard.c switch). */
  function NavigationCode(key: NavigationKey): (m: Mapping)
    ensures m.scancode != 0 && !Scancodes.IsPrefix(m.scancode)
    ensures m.needsE0
  {
    match key
    case Ins => Extended(Scancodes.Insert)
    case Home => Extended(Scancodes.Home)
    case Pgup => Extended(Scancodes.PgUp)
    case Del => Extended(Scancodes.Delete)
    case End => Extended(Scancodes.End)
    case Pgdn => Extended(Scancodes.PgDn)
  }

  /** Arrow keys (ps2demo/keyboard.c switch). */
  function ArrowCode(key: ArrowKey): (m: Mapping)
    ensures m.scancode != 0 && !Scancodes.IsPrefix(m.scancode)
    ensures m.needsE0
  {
    match key
    case Up => Extended(Scancodes.Up)
    case Down => Extended(Scancodes.Down)
    case Left => Extended(Scancodes.Left)
    case Rght => Extended(Scancodes.Right)
  }

  /** Keypad (ps2demo/keyboard.c switch). */
  function KeypadCode(key: KeypadKey): (m: Mapping)
    ensures m.scancode != 0 && !Scancodes.IsPrefix(m.scancode)
    ensures m.needsE0 <==> key.Psls? || key.Pent?
  {
    match key
    case Num => Plain(Scancodes.NumLock)
    case Psls => Extended(Scancodes.KpSlash)
    case Past => Plain(Scancodes.KpAsterisk)
    case Pmns => Plain(Scancodes.KpMinus)
    case Ppls => Plain(Scancodes.KpPlus)
    case Pent => Extended(Scancodes.KpEnter)
    case Pdot => Plain(Scancodes.KpDot)
    case P0 => Plain(Scancodes.Kp0)
    case P1 => Plain(Scancodes.Kp1)
    case P2 => Plain(Scancodes.Kp2)
    case P3 => Plain(Scancodes.Kp3)
    case P4 => Plain(Scancodes.Kp4)
    case P5 => Plain(Scancodes.Kp5)
    case P6 => Plain(Scancodes.Kp6)
    case P7 => Plain(Scancodes.Kp7)
    case P8 => Plain(Scancodes.Kp8)
    case P9 => Plain(Scancodes.Kp9)
  }

  /** Lock keys (ps2demo/keyboard.c switch). */
  function LockCode(key: LockKey): (m: Mapping)
    ensures m.scancode != 0 && !Scancodes.IsPrefix(m.scancode)
    ensures m.needsE0 <==> key.Pscr?
  {
    match key
    case Scrl => Plain(Scancodes.Scroll)
    case Pscr => Extended(Scancodes.PScreen)
  }

  /** GUI keys (ps2demo/keyboard.c switch). */
  function GuiCode(key: GuiKey): (m: Mapping)
    ensures m.scancode != 0 && !Scancodes.IsPrefix(m.scancode)
    ensures m.needsE0
  {
    match key
    case Lgui => Extended(Scancodes.LGui)
    case Rgui => Extended(Scancodes.RGui)
  }

  /** Multimedia keys (ps2demo/keyboard.c switch). */
  function MediaCode(key: MediaKey): (m: Mapping)
    ensures m.scancode != 0 && !Scancodes.IsPrefix(m.scancode)
    ensures m.needsE0
  {
    match key
    case Mute => Extended(Scancodes.Mute)
    case Vold => Extended(Scancodes.VolumeDown)
    case Volu => Extended(Scancodes.VolumeUp)
    case Mnxt => Extended(Scancodes.MediaNext)
    case Mprv => Extended(Scancodes.MediaPrev)
    case Mstp => Extended(Scancodes.MediaStop)
    case Mply => Extended(Scancodes.MediaPlay)
    case Msel => Extended(Scancodes.MediaSelect)
  }

  /** Browser keys (ps2demo/keyboard.c switch). */
  function BrowserCode(key: BrowserKey): (m: Mapping)
    ensures m.scancode != 0 && !Scancodes.IsPrefix(m.scancode)
    ensures m.needsE0
  {
    match key
    case Wsch => Extended(Scancodes.WwwSearch)
    case Whom => Extended(Scancodes.WwwHome)
    case Wbak => Extended(Scancodes.WwwBack)
    case Wfwd => Extended(Scancodes.WwwForward)
    case Wstp => Extended(Scancodes.WwwStop)
    case Wref => Extended(Scancodes.WwwRefresh)
    case Wfav => Extended(Scancodes.WwwFavorites)
  }

  /** Application keys (ps2demo/keyboard.c switch). */
  function ApplicationCode(key: ApplicationKey): (m: Mapping)
    ensures m.scancode != 0 && !Scancodes.IsPrefix(m.scancode)
    ensures m.needsE0
  {
    match key
    case Mail => Extended(Scancodes.AppMail)
    case Calc => Extended(Scancodes.AppCalc)
    case Mycm => Extended(Scancodes.AppMyComputer)
  }

  /** ACPI power keys (ps2demo/keyboard.c switch). */
  function AcpiCode(key: AcpiKey): (m: Mapping)
    ensures m.scancode != 0 && !Scancodes.IsPrefix(m.scancode)
    ensures m.needsE0
  {
    match key
    case Pwr => Extended(Scancodes.Power)
    case Slep => Extended(Scancodes.Sleep)
    case Wake => Extended(Scancodes.Wake)
  }

  /** International and language keys (ps2demo/keyboard.c switch). */
  function InternationalCode(key: InternationalKey): (m: Mapping)
    ensures m.scancode != 0 && !Scancodes.IsPrefix(m.scancode)
    ensures !m.needsE0
  {
    match key
    case Int1 => Plain(Scancodes.Intl1)
    case Int2 => Plain(Scancodes.Intl2)
    case Int3 => Plain(Scancodes.Intl3)
    case Int4 => Plain(Scancodes.Intl4)
    case Int5 => Plain(Scancodes.Intl5)
    case Lng1 => Plain(Scancodes.Lang1)
    case Lng2 => Plain(Scancodes.Lang2)
  }

  /**
   * qmk_to_ps2_scancode: total; a zero code marks exactly the keycodes the
   * table does not name, every other code is one of the header's key make
   * codes, and E0 is required exactly for the extended keys.
   */
  function Lookup(k: Keycode): (m: Mapping)
    ensures m.scancode == 0 <==> k.Other?
    ensures k.Other? ==> m == Unmapped
    ensures !Scancodes.IsPrefix(m.scancode)
    ensures !k.Other? ==> Scancodes.IsKeyCode(m.scancode)
    ensures m.needsE0 <==> IsExtended(k)
  {
    match k
    case Letter(key) => LetterCode(key)
    case Number(key) => NumberCode(key)
    case Function(key) => FunctionCode(key)
    case Symbol(key) => SymbolCode(key)
    case Control(key) => ControlCode(key)
    case Navigation(key) => NavigationCode(key)
    case Arrow(key) => ArrowCode(key)
    case Keypad(key) => KeypadCode(key)
    case Lock(key) => LockCode(key)
    case Gui(key) => GuiCode(key)
    case Media(key) => MediaCode(key)
    case Browser(key) => BrowserCode(key)
    case Application(key) => ApplicationCode(key)
    case Acpi(key) => AcpiCode(key)
    case International(key) => InternationalCode(key)
    case Other(_) => Unmapped
  }

  /**
   * A host's view of the table: which key a plain code, and which key an
   * E0-prefixed code, denotes. It is written from the byte values,
   * independently of Lookup.
   */
  function KeyFor(m: Mapping): Option<Keycode> {
    if m.needsE0 then ExtendedKeyFor(m.scancode) else PlainKeyFor(m.scancode)
  }

  /** The plain half of the inverse table, split by the code's high nibble. */
  function PlainKeyFor(code: Scancodes.Byte): Option<Keycode> {
    if code < 0x40 then
      if code < 0x20 then
        if code < 0x10 then PlainKeyFor00(code) else PlainKeyFor10(code)
      else
        if code < 0x30 then PlainKeyFor20(code) else PlainKeyFor30(code)
    else
      if code < 0x60 then
        if code < 0x50 then PlainKeyFor40(code) else PlainKeyFor50(code)
      else
        if code < 0x70 then PlainKeyFor60(code) else PlainKeyFor70(code)
  }

  function PlainKeyFor00(code: Scancodes.Byte): Option<Keycode> {
    match code
    case 0x01 => Some(Function(F9))
    case 0x03 => Some(Function(F5))
    case 0x04 => Some(Function(F3))
    case 0x05 => Some(Function(F1))
    case 0x06 => Some(Function(F2))
    case 0x07 => Some(Function(F12))
    case 0x08 => Some(Function(F13))
    case 0x09 => Some(Function(F10))
    case 0x0A => Some(Function(F8))
    case 0x0B => Some(Function(F6))
    case 0x0C => Some(Function(F4))
    case 0x0D => Some(Control(Tab))
    case 0x0E => Some(Symbol(Grv))
    case _ => None
  }

  function PlainKeyFor10(code: Scancodes.Byte): Option<Keycode> {
    match code
    case 0x10 => Some(Function(F14))
    case 0x11 => Some(Control(Lalt))
    case 0x12 => Some(Control(Lsft))
    case 0x13 => Some(International(Int2))
    case 0x14 => Some(Control(Lctl))
    case 0x15 => Some(Letter(Q))
    case 0x16 => Some(Number(N1))
    case 0x18 => Some(Function(F15))
    case 0x1A => Some(Letter(Z))
    case 0x1B => Some(Letter(S))
    case 0x1C => Some(Letter(A))
    case 0x1D => Some(Letter(W))
    case 0x1E => Some(Number(N2))
    case _ => None
  }

  function PlainKeyFor20(code: Scancodes.Byte): Option<Keycode> {
    match code
    case 0x20 => Some(Function(F16))
    case 0x21 => Some(Letter(C))
    case 0x22 => Some(Letter(X))
    case 0x23 => Some(Letter(D))
    case 0x24 => Some(Letter(E))
    case 0x25 => Some(Number(N4))
    case 0x26 => Some(Number(N3))
    case 0x28 => Some(Function(F17))
    case 0x29 => Some(Control(Spc))
    case 0x2A => Some(Letter(V))
    case 0x2B => Some(Letter(F))
    case 0x2C => Some(Letter(T))
    case 0x2D => Some(Letter(R))
    case 0x2E => Some(Number(N5))
    case _ => None
  }

  function PlainKeyFor30(code: Scancodes.Byte): Option<Keycode> {
    match code
    case 0x30 => Some(Function(F18))
    case 0x31 => Some(Letter(N))
    case 0x32 => Some(Letter(B))
    case 0x33 => Some(Letter(H))
    case 0x34 => Some(Letter(G))
    case 0x35 => Some(Letter(Y))
    case 0x36 => Some(Number(N6))
    case 0x38 => Some(Function(F19))
    case 0x3A => Some(Letter(M))
    case 0x3B => Some(Letter(J))
    case 0x3C => Some(Letter(U))
    case 0x3D => Some(Number(N7))
    case 0x3E => Some(Number(N8))
    case _ => None
  }

  function PlainKeyFor40(code: Scancodes.Byte): Option<Keycode> {
    match code
    case 0x40 => Some(Function(F20))
    case 0x41 => Some(Symbol(Comm))
    case 0x42 => Some(Letter(K))
    case 0x43 => Some(Letter(I))
    case 0x44 => Some(Letter(O))
    case 0x45 => Some(Number(N0))
    case 0x46 => Some(Number(N9))
    case 0x48 => Some(Function(F21))
    case 0x49 => Some(Symbol(Dot))
    case 0x4A => Some(Symbol(Slsh))
    case 0x4B => Some(Letter(L))
    case 0x4C => Some(Symbol(Scln))
    case 0x4D => Some(Letter(P))
    case 0x4E => Some(Symbol(Mins))
    case _ => None
  }

  function PlainKeyFor50(code: Scancodes.Byte): Option<Keycode> {
    match code
    case 0x50 => Some(Function(F22))
    case 0x51 => Some(International(Int1))
    case 0x52 => Some(Symbol(Quot))
    case 0x54 => Some(Symbol(Lbrc))
    case 0x55 => Some(Symbol(Eql))
    case 0x57 => Some(Function(F23))
    case 0x58 => Some(Control(Caps))
    case 0x59 => Some(Control(Rsft))
    case 0x5A => Some(Control(Ent))
    case 0x5B => Some(Symbol(Rbrc))
    case 0x5D => Some(Symbol(Bsls))
    case 0x5F => Some(Function(F24))
    case _ => None
  }

  function PlainKeyFor60(code: Scancodes.Byte): Option<Keycode> {
    match code
    case 0x64 => Some(International(Int4))
    case 0x66 => Some(Control(Bspc))
    case 0x67 => Some(International(Int5))
    case 0x69 => Some(Keypad(P1))
    case 0x6A => Some(International(Int3))
    case 0x6B => Some(Keypad(P4))
    case 0x6C => Some(Keypad(P7))
    case _ => None
  }

  function PlainKeyFor70(code: Scancodes.Byte): Option<Keycode> {
    match code
    case 0x70 => Some(Keypad(P0))
    case 0x71 => Some(Keypad(Pdot))
    case 0x72 => Some(Keypad(P2))
    case 0x73 => Some(Keypad(P5))
    case 0x74 => Some(Keypad(P6))
    case 0x75 => Some(Keypad(P8))
    case 0x76 => Some(Control(Esc))
    case 0x77 => Some(Keypad(Num))
    case 0x78 => Some(Function(F11))
    case 0x79 => Some(Keypad(Ppls))
    case 0x7A => Some(Keypad(P3))
    case 0x7B => Some(Keypad(Pmns))
    case 0x7C => Some(Keypad(Past))
    case 0x7D => Some(Keypad(P9))
    case 0x7E => Some(Lock(Scrl))
    case 0x83 => Some(Function(F7))
    case 0xF1 => Some(International(Lng2))
    case 0xF2 => Some(International(Lng1))
    case _ => None
  }

  function ExtendedKeyFor(code: Scancodes.Byte): Option<Keycode> {
    match code
    case 0x10 => Some(Browser(Wsch))
    case 0x11 => Some(Control(Ralt))
    case 0x14 => Some(Control(Rctl))
    case 0x15 => Some(Media(Mprv))
    case 0x18 => Some(Browser(Wfav))
    case 0x1F => Some(Gui(Lgui))
    case 0x20 => Some(Browser(Wref))
    case 0x21 => Some(Media(Vold))
    case 0x23 => Some(Media(Mute))
    case 0x27 => Some(Gui(Rgui))
    case 0x28 => Some(Browser(Wstp))
    case 0x2B => Some(Application(Calc))
    case 0x2F => Some(Control(App))
    case 0x30 => Some(Browser(Wfwd))
    case 0x32 => Some(Media(Volu))
    case 0x34 => Some(Media(Mply))
    case 0x37 => Some(Acpi(Pwr))
    case 0x38 => Some(Browser(Wbak))
    case 0x3A => Some(Browser(Whom))
    case 0x3B => Some(Media(Mstp))
    case 0x3F => Some(Acpi(Slep))
    case 0x40 => Some(Application(Mycm))
    case 0x48 => Some(Application(Mail))
    case 0x4A => Some(Keypad(Psls))
    case 0x4D => Some(Media(Mnxt))
    case 0x50 => Some(Media(Msel))
    case 0x5A => Some(Keypad(Pent))
    case 0x5E => Some(Acpi(Wake))
    case 0x69 => Some(Navigation(End))
    case 0x6B => Some(Arrow(Left))
    case 0x6C => Some(Navigation(Home))
    case 0x70 => Some(Navigation(Ins))
    case 0x71 => Some(Navigation(Del))
    case 0x72 => Some(Arrow(Down))
    case 0x74 => Some(Arrow(Rght))
    case 0x75 => Some(Arrow(Up))
    case 0x7A => Some(Navigation(Pgdn))
    case 0x7C => Some(Lock(Pscr))
    case 0x7D => Some(Navigation(Pgup))
    case _ => None
  }

  // The inverse table recovers each key of a group from its code.

  lemma LetterRoundTrip(key: LetterKey)
    ensures KeyFor(LetterCode(key)) == Some(Letter(key))
  {
  }

  lemma NumberRoundTrip(key: NumberKey)
    ensures KeyFor(NumberCode(key)) == Some(Number(key))
  {
  }

  lemma FunctionRoundTrip(key: FunctionKey)
    ensures KeyFor(FunctionCode(key)) == Some(Function(key))
  {
  }

  lemma SymbolRoundTrip(key: SymbolKey)
    ensures KeyFor(SymbolCode(key)) == Some(Symbol(key))
  {
  }

  lemma ControlRoundTrip(key: ControlKey)
    ensures KeyFor(ControlCode(key)) == Some(Control(key))
  {
  }

  lemma NavigationRoundTrip(key: NavigationKey)
    ensures KeyFor(NavigationCode(key)) == Some(Navigation(key))
  {
  }

  lemma ArrowRoundTrip(key: ArrowKey)
    ensures KeyFor(ArrowCode(key)) == Some(Arrow(key))
  {
  }

  lemma KeypadRoundTrip(key: KeypadKey)
    ensures KeyFor(KeypadCode(key)) == Some(Keypad(key))
  {
  }

  lemma LockRoundTrip(key: LockKey)
    ensures KeyFor(LockCode(key)) == Some(Lock(key))
  {
  }

  lemma GuiRoundTrip(key: GuiKey)
    ensures KeyFor(GuiCode(key)) == Some(Gui(key))
  {
  }

  lemma MediaRoundTrip(key: MediaKey)
    ensures KeyFor(MediaCode(key)) == Some(Media(key))
  {
  }

  lemma BrowserRoundTrip(key: BrowserKey)
    ensures KeyFor(BrowserCode(key)) == Some(Browser(key))
  {
  }

  lemma ApplicationRoundTrip(key: ApplicationKey)
    ensures KeyFor(ApplicationCode(key)) == Some(Application(key))
  {
  }

  lemma AcpiRoundTrip(key: AcpiKey)
    ensures KeyFor(AcpiCode(key)) == Some(Acpi(key))
  {
  }

  lemma InternationalRoundTrip(key: InternationalKey)
    ensures KeyFor(InternationalCode(key)) == Some(International(key))
  {
  }

  /** Every mapped key is recovered from its (code, prefix) pair. */
  lemma KeyForLookup(k: Keycode)
    requires !k.Other?
    ensures KeyFor(Lookup(k)) == Some(k)
  {
    match k
    case Letter(key) => LetterRoundTrip(key);
    case Number(key) => NumberRoundTrip(key);
    case Function(key) => FunctionRoundTrip(key);
    case Symbol(key) => SymbolRoundTrip(key);
    case Control(key) => ControlRoundTrip(key);
    case Navigation(key) => NavigationRoundTrip(key);
    case Arrow(key) => ArrowRoundTrip(key);
    case Keypad(key) => KeypadRoundTrip(key);
    case Lock(key) => LockRoundTrip(key);
    case Gui(key) => GuiRoundTrip(key);
    case Media(key) => MediaRoundTrip(key);
    case Browser(key) => BrowserRoundTrip(key);
    case Application(key) => ApplicationRoundTrip(key);
    case Acpi(key) => AcpiRoundTrip(key);
    case International(key) => InternationalRoundTrip(key);
  }

  /** No two distinct mapped keys yield the same (code, prefix) pair. */
  lemma LookupInjective(j: Keycode, k: Keycode)
    requires Lookup(j).scancode != 0
    requires Lookup(j) == Lookup(k)
    ensures j == k
  {
    KeyForLookup(j);
    KeyForLookup(k);
  }

  /** Examples from the table: plain A, and right Alt sharing left Alt's code behind E0. */
  lemma LookupExamples()
    ensures Lookup(Letter(A)) == Mapping(0x1C, false)
    ensures Lookup(Control(Ralt)) == Mapping(0x11, true) && Lookup(Control(Lalt)) == Mapping(0x11, false)
    ensures Lookup(Keypad(Pent)) == Mapping(0x5A, true) && Lookup(Control(Ent)) == Mapping(0x5A, false)
    ensures Lookup(Lock(Pscr)) == Mapping(0x7C, true)
  {
  }
}

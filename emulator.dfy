/**
 * The PS/2 emulation state machine of the dual-mode keyboard
 * (ps2demo/keyboard.c), as pure functions from the old state and the
 * inputs of one entry point to the new state and the driver calls issued.
 * Pin levels, timer readings, the user hook's answer and the driver's
 * answer to a make-code send are inputs.
 */
module Emulator {
  import opened Scancodes
  import Keymap
  import opened Ps2Device

  type U16 = x: int | 0 <= x < 0x1_0000
  type U32 = x: int | 0 <= x < 0x1_0000_0000

  /**
   * The unsigned 32-bit difference now - since, which wraps when the
   * millisecond timer has overflowed between the two readings.
   */
  function Elapsed(now: U32, since: U32): (d: U32)
    ensures since <= now ==> d == now - since
    ensures now < since ==> d == now - since + 0x1_0000_0000
  {
    (now - since) % 0x1_0000_0000
  }

  /** The timer reading d milliseconds after t. */
  function Later(t: U32, d: nat): U32 {
    (t + d) % 0x1_0000_0000
  }

  lemma ElapsedLater(t: U32, d: nat)
    requires d < 0x1_0000_0000
    ensures Elapsed(Later(t, d), t) == d
  {
  }

  lemma ElapsedLaterLater(t: U32, d: nat, e: nat)
    requires d <= e < 0x1_0000_0000
    ensures Elapsed(Later(t, e), Later(t, d)) == e - d
  {
  }

  /** The single-slot typematic repeat record. */
  datatype Typematic = Typematic(
    scancode: Byte,      // make code of the held key
    needsE0: bool,       // whether that code is sent after E0
    active: bool,        // whether a key is held
    pressTime: U32,      // when it was pressed
    lastRepeat: U32,     // when it was last sent
    repeatDelay: U16,    // milliseconds before repeating starts
    repeatRate: U16)     // milliseconds between repeats

  datatype KbState = KbState(usbMode: bool, typematic: Typematic)

  /** The static initial values: USB mode, nothing held, 500 ms delay, 33 ms rate. */
  const InitialState := KbState(true, Typematic(0, false, false, 0, 0, 500, 33))

  /**
   * What every reachable state satisfies: a held key has a real make code,
   * and nothing is held in USB mode.
   */
  predicate Valid(s: KbState): (b: bool)
    ensures s == InitialState ==> b
  {
    && (s.typematic.active ==> s.typematic.scancode != 0 && !IsPrefix(s.typematic.scancode))
    && (s.usbMode ==> !s.typematic.active)
  }

  /** The result of a housekeeping or start-up step. */
  datatype Step = Step(state: KbState, calls: seq<Call>)

  /** The result of processing one key record; passOn is process_record_kb's answer. */
  datatype Reply = Reply(state: KbState, calls: seq<Call>, passOn: bool)

  /** The E0 prefix send that precedes an extended code. */
  function PrefixCalls(needsE0: bool): seq<Call> {
    if needsE0 then [Make(PrefixE0)] else []
  }

  /**
   * process_record_kb: the user hook decides first; in USB mode the record
   * goes on to the USB stack; in PS/2 mode a mapped key is sent as make or
   * break code and arms or stops the typematic repeat, and the record is
   * consumed. The send results are only logged, so they are not inputs.
   */
  function ProcessRecord(s: KbState, key: Keymap.Keycode, pressed: bool, userContinues: bool, now: U32): (r: Reply)
    ensures r.passOn ==> r.state == s && r.calls == []
    ensures r.state.usbMode == s.usbMode
    ensures r.state.typematic.repeatDelay == s.typematic.repeatDelay
    ensures r.state.typematic.repeatRate == s.typematic.repeatRate
  {
    if !userContinues then Reply(s, [], false)
    else if s.usbMode then Reply(s, [], true)
    else
      var m := Keymap.Lookup(key);
      if m.scancode == 0 then Reply(s, [], false)
      else SendMapped(s, m, pressed, now)
  }

  /** The PS/2 branch of process_record_kb for a key with a scan code. */
  function SendMapped(s: KbState, m: Keymap.Mapping, pressed: bool, now: U32): (r: Reply)
    ensures r.calls == EventCalls(KeyEvent(m.scancode, m.needsE0, !pressed))
    ensures r.state.typematic.active == pressed
    ensures r.state.usbMode == s.usbMode && !r.passOn
  {
    if pressed then
      var t := s.typematic.(scancode := m.scancode, needsE0 := m.needsE0, active := true,
                            pressTime := now, lastRepeat := now);
      Reply(s.(typematic := t), PrefixCalls(m.needsE0) + [Make(m.scancode)], false)
    else
      Reply(s.(typematic := s.typematic.(active := false)), PrefixCalls(m.needsE0) + [Break(m.scancode)], false)
  }

  /**
   * The mode-switch check of housekeeping_task_kb: the mode follows the pin
   * (high is USB); entering PS/2 initialises the bus, entering USB stops
   * the repeat.
   */
  function ModeCheck(s: KbState, pin: bool): (m: Step)
    ensures m.state.usbMode == pin
    ensures m.calls == [] || m.calls == [Init]
    ensures m.state.usbMode ==> !m.state.typematic.active || m.state == s
  {
    if pin == s.usbMode then Step(s, [])
    else if !pin then Step(s.(usbMode := false), [Init])
    else Step(s.(usbMode := true, typematic := s.typematic.(active := false)), [])
  }

  /** Whether the held key is due for a repeat at time now. */
  predicate RepeatDue(t: Typematic, now: U32): (b: bool)
    ensures b ==> t.active
    ensures t.active && now == t.pressTime && now == t.lastRepeat ==> (b <==> t.repeatDelay == 0 && t.repeatRate == 0)
  {
    && t.active
    && Elapsed(now, t.pressTime) >= t.repeatDelay
    && Elapsed(now, t.lastRepeat) >= t.repeatRate
  }

  datatype Repeat = Repeat(typematic: Typematic, calls: seq<Call>)

  /**
   * The typematic repeat block: a due key is sent again, E0 first when
   * needed; its time is recorded only if the driver accepted the make code.
   */
  function RepeatTick(t: Typematic, now: U32, sendOk: bool): (r: Repeat)
    ensures r.calls == [] <==> !RepeatDue(t, now)
    ensures r.calls != [] ==> r.calls == EventCalls(KeyEvent(t.scancode, t.needsE0, false))
    ensures r.typematic == t || r.typematic == t.(lastRepeat := now)
  {
    if RepeatDue(t, now) then
      Repeat(if sendOk then t.(lastRepeat := now) else t, PrefixCalls(t.needsE0) + [Make(t.scancode)])
    else Repeat(t, [])
  }

  /** housekeeping_task_kb: the mode check, then in PS/2 mode the bus task and the repeat. */
  function Housekeeping(s: KbState, pin: bool, now: U32, sendOk: bool): (h: Step)
    ensures h.state.usbMode == pin
    ensures !pin ==> Task in h.calls
    ensures h.state.typematic.repeatDelay == s.typematic.repeatDelay
    ensures h.state.typematic.repeatRate == s.typematic.repeatRate
  {
    var m := ModeCheck(s, pin);
    if m.state.usbMode then m
    else
      var r := RepeatTick(m.state.typematic, now, sendOk);
      Step(m.state.(typematic := r.typematic), m.calls + [Task] + r.calls)
  }

  /**
   * keyboard_post_init_kb: the pin is read twice and the second reading
   * sets the mode; PS/2 mode initialises the bus.
   */
  function PostInit(s: KbState, first: bool, second: bool): (p: Step)
    ensures p.state.usbMode == second && p.state.typematic == s.typematic
    ensures p.calls == [Init] || (second && p.calls == [])
  {
    var s1 := s.(usbMode := first).(usbMode := second);
    if !second then Step(s1, [Init]) else Step(s1, [])
  }

  /** ps2_set_typematic_rate. */
  function SetTypematicRate(s: KbState, delay: U16, rate: U16): (r: KbState)
    ensures r.typematic.repeatDelay == delay && r.typematic.repeatRate == rate
    ensures Valid(r) <==> Valid(s)
  {
    s.(typematic := s.typematic.(repeatDelay := delay, repeatRate := rate))
  }

  /** The inputs of one housekeeping pass. */
  datatype Tick = Tick(pin: bool, now: U32, sendOk: bool)

  /** A run of housekeeping passes, with all the calls they issue in order. */
  function RunTicks(s: KbState, ticks: seq<Tick>): Step
    decreases |ticks|
  {
    if ticks == [] then Step(s, [])
    else
      var h := Housekeeping(s, ticks[0].pin, ticks[0].now, ticks[0].sendOk);
      var rest := RunTicks(h.state, ticks[1..]);
      Step(rest.state, h.calls + rest.calls)
  }
}

/**
 * What the emulation state machine promises: which key records reach the
 * bus and what they send, how the mode follows the switch, when the held
 * key repeats, and the invariant every entry point keeps.
 */
module EmulatorProperties {
  import opened Scancodes
  import opened Wrappers
  import Keymap
  import opened Ps2Device
  import opened Emulator

  // ---- process_record_kb ----

  /**
   * A record reaches the bus exactly when the user hook lets it through, the
   * keyboard is in PS/2 mode and the key has a scan code; otherwise nothing
   * changes. The record goes on to the USB stack exactly in USB mode.
   */
  lemma ProcessRecordSilent(s: KbState, key: Keymap.Keycode, pressed: bool, userContinues: bool, now: U32)
    ensures var r := ProcessRecord(s, key, pressed, userContinues, now);
      && (r.calls == [] <==> !userContinues || s.usbMode || key.Other?)
      && (r.calls == [] ==> r.state == s)
      && (r.passOn <==> userContinues && s.usbMode)
  {
  }

  /**
   * A press of a mapped key in PS/2 mode sends E0 (for an extended key) and
   * the make code, whatever the driver answers, and arms the repeat slot
   * with that code at the current time; the mode and the timing settings
   * are kept, and the record is consumed.
   */
  lemma ProcessPress(s: KbState, key: Keymap.Keycode, now: U32)
    requires !s.usbMode && !key.Other?
    ensures var r := ProcessRecord(s, key, true, true, now);
      var t := r.state.typematic;
      && r.calls == (if Keymap.IsExtended(key) then [Make(PrefixE0)] else []) + [Make(Keymap.Lookup(key).scancode)]
      && t.active && t.scancode == Keymap.Lookup(key).scancode && t.needsE0 == Keymap.IsExtended(key)
      && t.pressTime == now && t.lastRepeat == now
      && t.repeatDelay == s.typematic.repeatDelay && t.repeatRate == s.typematic.repeatRate
      && r.state.usbMode == s.usbMode && !r.passOn
  {
  }

  /**
   * A release of a mapped key in PS/2 mode sends E0 (for an extended key)
   * and the break code and stops the repeat, even when another key is the
   * one held; nothing else in the slot changes.
   */
  lemma ProcessRelease(s: KbState, key: Keymap.Keycode, now: U32)
    requires !s.usbMode && !key.Other?
    ensures var r := ProcessRecord(s, key, false, true, now);
      && r.calls == (if Keymap.IsExtended(key) then [Make(PrefixE0)] else []) + [Break(Keymap.Lookup(key).scancode)]
      && r.state == s.(typematic := s.typematic.(active := false))
      && !r.passOn
  {
  }

  /**
   * A host reading the bytes a mapped key's record puts on the wire
   * recovers that key and whether it was pressed or released.
   */
  lemma HostRecoversKey(s: KbState, key: Keymap.Keycode, pressed: bool, now: U32)
    requires !s.usbMode && !key.Other?
    ensures var ev := Decode(Wire(ProcessRecord(s, key, pressed, true, now).calls));
      && ev.Some?
      && ev.value.release == !pressed
      && Keymap.KeyFor(Keymap.Mapping(ev.value.code, ev.value.extended)) == Some(key)
  {
    var m := Keymap.Lookup(key);
    var e := KeyEvent(m.scancode, m.needsE0, !pressed);
    assert ProcessRecord(s, key, pressed, true, now).calls == EventCalls(e);
    DecodeEventCalls(e);
    Keymap.KeyForLookup(key);
  }

  /** The bytes of a few records, as a host sees them. */
  lemma ProcessRecordExamples(s: KbState, now: U32)
    requires !s.usbMode
    ensures Wire(ProcessRecord(s, Keymap.Letter(Keymap.A), true, true, now).calls) == [0x1C]
    ensures Wire(ProcessRecord(s, Keymap.Letter(Keymap.A), false, true, now).calls) == [0xF0, 0x1C]
    ensures Wire(ProcessRecord(s, Keymap.Control(Keymap.Ralt), true, true, now).calls) == [0xE0, 0x11]
    ensures Wire(ProcessRecord(s, Keymap.Control(Keymap.Ralt), false, true, now).calls) == [0xE0, 0xF0, 0x11]
    ensures Wire(ProcessRecord(s, Keymap.Control(Keymap.Lalt), true, true, now).calls) == [0x11]
  {
    assert Keymap.Lookup(Keymap.Letter(Keymap.A)) == Keymap.Mapping(0x1C, false);
    assert Keymap.Lookup(Keymap.Control(Keymap.Ralt)) == Keymap.Mapping(0x11, true);
    assert Keymap.Lookup(Keymap.Control(Keymap.Lalt)) == Keymap.Mapping(0x11, false);
    EventWire(KeyEvent(0x1C, false, false));
    EventWire(KeyEvent(0x1C, false, true));
    EventWire(KeyEvent(0x11, true, false));
    EventWire(KeyEvent(0x11, true, true));
    EventWire(KeyEvent(0x11, false, false));
  }

  /**
   * Pressing and then releasing a mapped key sends its make sequence and
   * then its break sequence, with the same code and prefix, and leaves
   * nothing held.
   */
  lemma PressThenRelease(s: KbState, key: Keymap.Keycode, t0: U32, t1: U32)
    requires !s.usbMode && !key.Other?
    ensures var p := ProcessRecord(s, key, true, true, t0);
      var r := ProcessRecord(p.state, key, false, true, t1);
      var m := Keymap.Lookup(key);
      && p.calls + r.calls == EventCalls(KeyEvent(m.scancode, m.needsE0, false)) + EventCalls(KeyEvent(m.scancode, m.needsE0, true))
      && !r.state.typematic.active
      && r.state.usbMode == s.usbMode
  {
  }

  // ---- the mode switch ----

  /**
   * After the check the mode is the pin's; the bus is initialised exactly on
   * an edge to PS/2, the repeat is stopped on an edge to USB, and without an
   * edge nothing happens.
   */
  lemma ModeFollowsPin(s: KbState, pin: bool)
    ensures var m := ModeCheck(s, pin);
      && m.state.usbMode == pin
      && (m.calls == [Init] <==> s.usbMode && !pin)
      && (m.calls == [] <==> !(s.usbMode && !pin))
      && (pin == s.usbMode ==> m.state == s)
      && (!pin ==> m.state.typematic == s.typematic)
      && (pin && !s.usbMode ==> m.state.typematic == s.typematic.(active := false))
  {
  }

  /** A second check with the same pin level finds no edge. */
  lemma ModeCheckIdempotent(s: KbState, pin: bool)
    ensures ModeCheck(ModeCheck(s, pin).state, pin) == Step(ModeCheck(s, pin).state, [])
  {
  }

  /** In USB mode with the pin high a housekeeping pass does nothing at all. */
  lemma HousekeepingIdleInUsb(s: KbState, now: U32, sendOk: bool)
    requires s.usbMode
    ensures Housekeeping(s, true, now, sendOk) == Step(s, [])
  {
  }

  /** A pass with the pin high issues no driver call and leaves nothing held. */
  lemma HousekeepingToUsb(s: KbState, now: U32, sendOk: bool)
    requires Valid(s)
    ensures var h := Housekeeping(s, true, now, sendOk);
      h.calls == [] && h.state.usbMode && !h.state.typematic.active
  {
  }

  /**
   * A pass that sees the pin low in USB mode switches to PS/2, initialises
   * the bus and runs the bus task, and nothing repeats because nothing is
   * held.
   */
  lemma HousekeepingToPs2(s: KbState, now: U32, sendOk: bool)
    requires Valid(s) && s.usbMode
    ensures Housekeeping(s, false, now, sendOk) == Step(s.(usbMode := false), [Init, Task])
  {
  }

  /**
   * At start-up the second reading alone decides the mode, and the bus is
   * initialised exactly in PS/2 mode; nothing else changes.
   */
  lemma PostInitMode(s: KbState, first: bool, second: bool)
    ensures var p := PostInit(s, first, second);
      && p.state == s.(usbMode := second)
      && (p.calls == [Init] <==> !second)
      && (p.calls == [] <==> second)
      && p == PostInit(s, !first, second)
  {
  }

  // ---- typematic repeat ----

  /**
   * In PS/2 mode a pass runs the bus task and then sends the held key's
   * make code again exactly when it is held, the 32-bit time since the press
   * has reached the delay and the time since the last send has reached the
   * rate. Only the send time changes, and only when the driver accepted the
   * make code.
   */
  lemma RepeatSchedule(s: KbState, now: U32, sendOk: bool)
    requires !s.usbMode
    ensures var t := s.typematic;
      var h := Housekeeping(s, false, now, sendOk);
      var due := t.active && Elapsed(now, t.pressTime) >= t.repeatDelay && Elapsed(now, t.lastRepeat) >= t.repeatRate;
      && h.calls == [Task] + (if due then EventCalls(KeyEvent(t.scancode, t.needsE0, false)) else [])
      && h.state == s.(typematic := t.(lastRepeat := if due && sendOk then now else t.lastRepeat))
  {
  }

  /**
   * The bytes a due repeat asks the driver to send read as a fresh press of
   * the held key (whether the driver then accepts the make code is the
   * sendOk input).
   */
  lemma RepeatIsPress(s: KbState, now: U32, sendOk: bool)
    requires Valid(s) && !s.usbMode && RepeatDue(s.typematic, now)
    ensures Decode(Wire(Housekeeping(s, false, now, sendOk).calls))
      == Some(KeyEvent(s.typematic.scancode, s.typematic.needsE0, false))
  {
    var e := KeyEvent(s.typematic.scancode, s.typematic.needsE0, false);
    WireAppend([Task], EventCalls(e));
    assert Wire([Task]) == [];
    DecodeEventCalls(e);
  }

  /**
   * When the driver refuses the make code, the state is left as it was, so
   * the next pass tries again, though E0 has already gone out.
   */
  lemma RepeatRetriedAfterFailedSend(s: KbState, now: U32)
    requires !s.usbMode && RepeatDue(s.typematic, now) && s.typematic.needsE0
    ensures var h := Housekeeping(s, false, now, false);
      && h.state == s
      && h.calls == [Task, Make(PrefixE0), Make(s.typematic.scancode)]
      && RepeatDue(h.state.typematic, now)
  {
  }

  /** Whether a pass in PS/2 mode sends a key. */
  predicate SendsKey(s: KbState, now: U32) {
    Housekeeping(s, false, now, true).calls != [Task]
  }

  /**
   * With the standard settings, a key pressed at t does not repeat before
   * t+500; it repeats at t+500; after that repeat it is silent until t+533
   * and repeats again at t+533. Times wrap at 2^32 like the timer.
   */
  lemma StandardRepeatTiming(s: KbState, key: Keymap.Keycode, t: U32)
    requires !s.usbMode && !key.Other?
    requires s.typematic.repeatDelay == 500 && s.typematic.repeatRate == 33
    ensures var p := ProcessRecord(s, key, true, true, t).state;
      var q := Housekeeping(p, false, Later(t, 500), true).state;
      && (forall d :: 0 <= d < 500 ==> !SendsKey(p, Later(t, d)))
      && SendsKey(p, Later(t, 500))
      && q.typematic.lastRepeat == Later(t, 500)
      && (forall d :: 500 <= d < 533 ==> !SendsKey(q, Later(t, d)))
      && SendsKey(q, Later(t, 533))
  {
    var p := ProcessRecord(s, key, true, true, t).state;
    var q := Housekeeping(p, false, Later(t, 500), true).state;
    forall d | 0 <= d < 500
      ensures !SendsKey(p, Later(t, d))
    {
      ElapsedLater(t, d);
    }
    ElapsedLater(t, 500);
    forall d | 500 <= d < 533
      ensures !SendsKey(q, Later(t, d))
    {
      ElapsedLaterLater(t, 500, d);
    }
    ElapsedLater(t, 533);
    ElapsedLaterLater(t, 500, 533);
  }

  /**
   * Housekeeping never sends a key while nothing is held, and nothing stays
   * held: a run of passes from an idle slot puts no byte on the wire.
   */
  lemma {:induction false} IdleRunSendsNoKeys(s: KbState, ticks: seq<Tick>)
    requires !s.typematic.active
    ensures var r := RunTicks(s, ticks);
      && !r.state.typematic.active
      && (forall i :: 0 <= i < |r.calls| ==> !IsKeyCall(r.calls[i]))
      && Wire(r.calls) == []
    decreases |ticks|
  {
    var r := RunTicks(s, ticks);
    if ticks != [] {
      var h := Housekeeping(s, ticks[0].pin, ticks[0].now, ticks[0].sendOk);
      IdleRunSendsNoKeys(h.state, ticks[1..]);
      var rest := RunTicks(h.state, ticks[1..]);
      assert r.calls == h.calls + rest.calls;
      assert forall i :: 0 <= i < |h.calls| ==> !IsKeyCall(h.calls[i]);
    }
    WireWithoutKeyCalls(r.calls);
  }

  // ---- the typematic settings ----

  /** Only ps2_set_typematic_rate writes the delay and the rate. */
  lemma SettingsKept(s: KbState, key: Keymap.Keycode, pressed: bool, userContinues: bool, pin: bool, first: bool, now: U32, sendOk: bool)
    ensures ProcessRecord(s, key, pressed, userContinues, now).state.typematic.repeatDelay == s.typematic.repeatDelay
    ensures ProcessRecord(s, key, pressed, userContinues, now).state.typematic.repeatRate == s.typematic.repeatRate
    ensures Housekeeping(s, pin, now, sendOk).state.typematic.repeatDelay == s.typematic.repeatDelay
    ensures Housekeeping(s, pin, now, sendOk).state.typematic.repeatRate == s.typematic.repeatRate
    ensures PostInit(s, first, pin).state.typematic == s.typematic
  {
  }

  /** ps2_set_typematic_rate changes the two settings and nothing else. */
  lemma SetTypematicRateEffect(s: KbState, delay: U16, rate: U16)
    ensures var s1 := SetTypematicRate(s, delay, rate);
      && s1.typematic.repeatDelay == delay && s1.typematic.repeatRate == rate
      && s1.(typematic := s1.typematic.(repeatDelay := s.typematic.repeatDelay, repeatRate := s.typematic.repeatRate)) == s
  {
  }

  // ---- the invariant ----

  lemma InitialValid()
    ensures Valid(InitialState)
    ensures Valid(PostInit(InitialState, false, false).state)
    ensures Valid(PostInit(InitialState, true, true).state)
  {
  }

  /** Start-up keeps the invariant when nothing is held, as at reset. */
  lemma PostInitValid(s: KbState, first: bool, second: bool)
    requires Valid(s) && !s.typematic.active
    ensures Valid(PostInit(s, first, second).state)
  {
  }

  lemma ProcessRecordValid(s: KbState, key: Keymap.Keycode, pressed: bool, userContinues: bool, now: U32)
    requires Valid(s)
    ensures Valid(ProcessRecord(s, key, pressed, userContinues, now).state)
  {
  }

  lemma HousekeepingValid(s: KbState, pin: bool, now: U32, sendOk: bool)
    requires Valid(s)
    ensures Valid(Housekeeping(s, pin, now, sendOk).state)
  {
  }

  lemma SetTypematicRateValid(s: KbState, delay: U16, rate: U16)
    requires Valid(s)
    ensures Valid(SetTypematicRate(s, delay, rate))
  {
  }

  lemma {:induction false} RunTicksValid(s: KbState, ticks: seq<Tick>)
    requires Valid(s)
    ensures Valid(RunTicks(s, ticks).state)
    decreases |ticks|
  {
    if ticks != [] {
      var h := Housekeeping(s, ticks[0].pin, ticks[0].now, ticks[0].sendOk);
      HousekeepingValid(s, ticks[0].pin, ticks[0].now, ticks[0].sendOk);
      RunTicksValid(h.state, ticks[1..]);
    }
  }

  /**
   * Once a pass has seen the pin high, no later pass sends a key until a
   * new press is processed, whatever the pin does afterwards.
   */
  lemma UsbSwitchStopsRepeat(s: KbState, now: U32, sendOk: bool, ticks: seq<Tick>)
    requires Valid(s)
    ensures Wire(RunTicks(Housekeeping(s, true, now, sendOk).state, ticks).calls) == []
  {
    HousekeepingToUsb(s, now, sendOk);
    IdleRunSendsNoKeys(Housekeeping(s, true, now, sendOk).state, ticks);
  }

  /** In USB mode no pass sends a key, because nothing is held there. */
  lemma NoRepeatInUsb(s: KbState, now: U32, sendOk: bool)
    requires Valid(s) && s.usbMode
    ensures Housekeeping(s, true, now, sendOk).calls == []
    ensures !RepeatDue(s.typematic, now)
  {
  }
}

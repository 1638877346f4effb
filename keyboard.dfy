/**
 * The firmware's static state and its entry points (ps2demo/keyboard.c):
 * the mode flag and the typematic record as fields updated in place, and
 * the ordered driver calls as a trace the methods append to. Each method
 * is proved to do what the matching Emulator function says.
 */
module Firmware {
  import opened Scancodes
  import Keymap
  import opened Ps2Device
  import opened Emulator
  import EmulatorProperties

  class Keyboard {
    var usbMode: bool
    // the typematic record
    var scancode: Byte
    var needsE0: bool
    var active: bool
    var pressTime: U32
    var lastRepeat: U32
    var repeatDelay: U16
    var repeatRate: U16
    /** Every driver call issued so far, oldest first. */
    var trace: seq<Call>

    /** The fields as a value of the pure model. */
    function State(): KbState
      reads this
    {
      KbState(usbMode, Typematic(scancode, needsE0, active, pressTime, lastRepeat, repeatDelay, repeatRate))
    }

    ghost predicate Valid()
      reads this
    {
      Emulator.Valid(State())
    }

    /** The static initialisers. */
    constructor()
      ensures State() == InitialState && trace == []
      ensures Valid()
    {
      usbMode := true;
      scancode := 0;
      needsE0 := false;
      active := false;
      pressTime := 0;
      lastRepeat := 0;
      repeatDelay := 500;
      repeatRate := 33;
      trace := [];
    }

    function IsUsbMode(): (r: bool)
      reads this
      ensures r == State().usbMode
    {
      usbMode
    }

    function IsPs2Mode(): (r: bool)
      reads this
      ensures r == !IsUsbMode()
    {
      !usbMode
    }

    /** keyboard_post_init_kb, given the two pin readings. */
    method PostInit(first: bool, second: bool)
      modifies this
      ensures State() == Emulator.PostInit(old(State()), first, second).state
      ensures trace == old(trace) + Emulator.PostInit(old(State()), first, second).calls
      ensures old(Valid()) && !old(active) ==> Valid()
    {
      if Valid() && !active {
        EmulatorProperties.PostInitValid(State(), first, second);
      }
      usbMode := first;
      usbMode := second;
      if !usbMode {
        trace := trace + [Init];
      }
    }

    /** The mode-switch check at the start of housekeeping_task_kb. */
    method CheckMode(pin: bool)
      modifies this
      ensures State() == ModeCheck(old(State()), pin).state
      ensures trace == old(trace) + ModeCheck(old(State()), pin).calls
    {
      var newMode := pin;
      if newMode != usbMode {
        usbMode := newMode;
        if !usbMode {
          trace := trace + [Init];
        } else {
          active := false;
        }
      }
    }

    /** The typematic repeat block of housekeeping_task_kb. */
    method RepeatHeldKey(now: U32, sendOk: bool)
      modifies this
      ensures State() == old(State()).(typematic := RepeatTick(old(State()).typematic, now, sendOk).typematic)
      ensures trace == old(trace) + RepeatTick(old(State()).typematic, now, sendOk).calls
    {
      if active {
        if Elapsed(now, pressTime) >= repeatDelay {
          if Elapsed(now, lastRepeat) >= repeatRate {
            if needsE0 {
              trace := trace + [Make(PrefixE0)];
            }
            trace := trace + [Make(scancode)];
            if sendOk {
              lastRepeat := now;
            }
          }
        }
      }
    }

    /**
     * housekeeping_task_kb, given the pin reading, the timer reading and
     * the driver's answer to a repeated make code.
     */
    method Housekeeping(pin: bool, now: U32, sendOk: bool)
      modifies this
      ensures State() == Emulator.Housekeeping(old(State()), pin, now, sendOk).state
      ensures trace == old(trace) + Emulator.Housekeeping(old(State()), pin, now, sendOk).calls
      ensures old(Valid()) ==> Valid()
    {
      if Valid() {
        EmulatorProperties.HousekeepingValid(State(), pin, now, sendOk);
      }
      CheckMode(pin);
      if !usbMode {
        trace := trace + [Task];
        RepeatHeldKey(now, sendOk);
      }
    }

    /**
     * process_record_kb, given whether the user hook let the record
     * through; passOn is true when the USB stack is to handle the record.
     */
    method ProcessRecord(key: Keymap.Keycode, pressed: bool, userContinues: bool, now: U32) returns (passOn: bool)
      modifies this
      ensures passOn == Emulator.ProcessRecord(old(State()), key, pressed, userContinues, now).passOn
      ensures State() == Emulator.ProcessRecord(old(State()), key, pressed, userContinues, now).state
      ensures trace == old(trace) + Emulator.ProcessRecord(old(State()), key, pressed, userContinues, now).calls
      ensures old(Valid()) ==> Valid()
    {
      if Valid() {
        EmulatorProperties.ProcessRecordValid(State(), key, pressed, userContinues, now);
      }
      if !userContinues {
        return false;
      }
      if !usbMode {
        var m := Keymap.Lookup(key);
        if m.scancode == 0 {
          return false;
        }
        SendMapped(m, pressed, now);
        return false;
      }
      return true;
    }

    /** The PS/2 branch of process_record_kb: send the key and arm or stop the repeat. */
    method SendMapped(m: Keymap.Mapping, pressed: bool, now: U32)
      modifies this
      ensures State() == Emulator.SendMapped(old(State()), m, pressed, now).state
      ensures trace == old(trace) + Emulator.SendMapped(old(State()), m, pressed, now).calls
    {
      if pressed {
        if m.needsE0 {
          trace := trace + [Make(PrefixE0)];
        }
        trace := trace + [Make(m.scancode)];
        scancode := m.scancode;
        needsE0 := m.needsE0;
        active := true;
        pressTime := now;
        lastRepeat := now;
      } else {
        if m.needsE0 {
          trace := trace + [Make(PrefixE0)];
        }
        trace := trace + [Break(m.scancode)];
        active := false;
      }
    }

    /** ps2_set_typematic_rate. */
    method SetTypematicRate(delay: U16, rate: U16)
      modifies this
      ensures State() == Emulator.SetTypematicRate(old(State()), delay, rate)
      ensures trace == old(trace)
      ensures old(Valid()) ==> Valid()
    {
      if Valid() {
        EmulatorProperties.SetTypematicRateValid(State(), delay, rate);
      }
      repeatDelay := delay;
      repeatRate := rate;
    }
  }
}

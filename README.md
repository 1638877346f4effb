# PS/2 emulation core of a dual-mode keyboard, in Dafny

The firmware runs a keyboard either as a USB keyboard or, when a mode-select
pin is low, as a PS/2 keyboard. In PS/2 mode it does three things:

- It translates each key event to Scan Code Set 2 bytes. Some keys are
  prefixed with E0, and a release is F0 followed by the make code.
- It re-sends the held key after a delay and then at a fixed rate (typematic repeat).
- It follows the mode pin. Switching to PS/2 re-initialises the bus.
  Switching to USB stops the repeat.

The project models:

- `scancodes.dfy` (`Scancodes`): the Scan Code Set 2 make codes and the prefix
  bytes of `ps2demo/ps2_scancodes.h`, one constant per `#define`.
- `keymap.dfy` (`Keymap`): `qmk_to_ps2_scancode`.
  - Keycodes are a datatype of the `KC_*` names the switch handles, grouped
    as the switch groups them, plus `Other` for every other keycode.
  - `Lookup` is the table written with the header's constants.
  - `KeyFor` is an independent inverse table from (code, E0) back to the
    key. It proves that no two mapped keys share a (code, E0) pair.
- `ps2_device.dfy` (`Ps2Device`): the calls into the bus driver and the bytes
  they ask the driver to send, with a host-side decoder for one key event.
  `Wire` is that requested byte stream, as if every send succeeds; a send the
  driver refuses is still part of it.
- `emulator.dfy` (`Emulator`): the mode flag and the typematic record as a
  value, and each entry point as a function from the old state and the
  inputs to the new state and the driver calls issued.
- `emulator_properties.dfy` (`EmulatorProperties`): what those entry points
  promise, and the invariant they keep.
- `keyboard.dfy` (`Firmware.Keyboard`): the same state as a class whose methods
  update its fields in place and append to a trace of driver calls. Each
  method is proved to agree with its `Emulator` function.

Inputs from outside the core are method and function parameters:

- the pin readings;
- the 32-bit millisecond timer;
- the answer of `process_record_user`;
- the driver's answer to a repeated make code.

The other send results are only logged (ps2demo/keyboard.c:355, 376) or
discarded (the E0 prefix sends at ps2demo/keyboard.c:304, 350, 371) by the
firmware, so they are not inputs.

Details of the code that the model follows:

- `process_record_kb` asks `process_record_user` before it looks at the mode,
  and returns false when the hook declines, in either mode
  (ps2demo/keyboard.c:327-329).
- The comment above `qmk_to_ps2_scancode` (ps2demo/keyboard.c:36) describes
  a 16-bit return with the E0 flag in the upper byte. The code returns the
  two-field record `ps2_mapping_t` (ps2demo/keyboard.c:30-33, 37), which is
  what `Keymap.Mapping` models.
- On a press the code reads the timer twice (ps2demo/keyboard.c:361-362),
  once for the press time and once for the last-repeat time; the model uses
  one reading for both.

## Model

| member | source | states |
|---|---|---|
| Scancodes.KeyCodesNonzero | ps2demo/ps2_scancodes.h:10-185 | every key make code is nonzero, so 0 can mean "unmapped" |
| Scancodes.KeyCodesAreNotPrefixes | ps2demo/ps2_scancodes.h:10-190 | no key make code is one of the prefix bytes E0, E1, F0 |
| Scancodes.HighKeyCodes | ps2demo/ps2_scancodes.h:56-185 | the only key codes at or above 0x80 are F7 = 0x83, LANG1 = 0xF2 and LANG2 = 0xF1 |
| Scancodes.SharedCodes | ps2demo/ps2_scancodes.h:86-134 | the codes that keys share and that only the E0 prefix tells apart: RALT/LALT, RCTRL/LCTRL, KP_ENTER/ENTER, KP_SLASH/SLASH, and the navigation and arrow keys with the keypad digits |
| Scancodes.ExtendedFunctionKeys | ps2demo/ps2_scancodes.h:62-73 | F13 to F24 are 0x08, 0x10, 0x18, 0x20, 0x28, 0x30, 0x38, 0x40, 0x48, 0x50, 0x57, 0x5F |
| Keymap.LetterCode | ps2demo/keyboard.c:41-67 | each letter maps to a nonzero, non-prefix code without E0 |
| Keymap.NumberCode | ps2demo/keyboard.c:69-79 | each digit maps to a nonzero, non-prefix code without E0 |
| Keymap.FunctionCode | ps2demo/keyboard.c:81-105 | F1 to F24 map to nonzero, non-prefix codes without E0 |
| Keymap.SymbolCode | ps2demo/keyboard.c:107-118 | each punctuation key maps to a nonzero, non-prefix code without E0 |
| Keymap.ControlCode | ps2demo/keyboard.c:120-133 | each control key maps to a nonzero, non-prefix code, with E0 exactly for RALT, RCTL and APP |
| Keymap.NavigationCode | ps2demo/keyboard.c:135-141 | each navigation key maps to a nonzero, non-prefix code with E0 |
| Keymap.ArrowCode | ps2demo/keyboard.c:143-147 | each arrow key maps to a nonzero, non-prefix code with E0 |
| Keymap.KeypadCode | ps2demo/keyboard.c:149-166 | each keypad key maps to a nonzero, non-prefix code, with E0 exactly for PSLS and PENT |
| Keymap.LockCode | ps2demo/keyboard.c:168-170 | Scroll Lock maps without E0, Print Screen with E0 (as the single code 7C) |
| Keymap.GuiCode | ps2demo/keyboard.c:172-174 | both GUI keys map to nonzero, non-prefix codes with E0 |
| Keymap.MediaCode | ps2demo/keyboard.c:176-184 | each multimedia key maps to a nonzero, non-prefix code with E0 |
| Keymap.BrowserCode | ps2demo/keyboard.c:186-193 | each browser key maps to a nonzero, non-prefix code with E0 |
| Keymap.ApplicationCode | ps2demo/keyboard.c:195-198 | each application key maps to a nonzero, non-prefix code with E0 |
| Keymap.AcpiCode | ps2demo/keyboard.c:200-203 | each ACPI key maps to a nonzero, non-prefix code with E0 |
| Keymap.InternationalCode | ps2demo/keyboard.c:205-212 | each international and language key maps to a nonzero, non-prefix code without E0 |
| Keymap.Lookup | ps2demo/keyboard.c:37-221 | the scan code is 0 exactly for keycodes the switch does not name, and then the result is (0, false); every other result is one of the header's key make codes, so none is a prefix byte; E0 is set exactly for the extended keys (IsExtended) |
| Keymap.LetterRoundTrip | ps2demo/keyboard.c:41-67 | the inverse table recovers every letter from its mapping |
| Keymap.NumberRoundTrip | ps2demo/keyboard.c:69-79 | the inverse table recovers every digit from its mapping |
| Keymap.FunctionRoundTrip | ps2demo/keyboard.c:81-105 | the inverse table recovers every function key from its mapping |
| Keymap.SymbolRoundTrip | ps2demo/keyboard.c:107-118 | the inverse table recovers every punctuation key from its mapping |
| Keymap.ControlRoundTrip | ps2demo/keyboard.c:120-133 | the inverse table recovers every control key from its mapping |
| Keymap.NavigationRoundTrip | ps2demo/keyboard.c:135-141 | the inverse table recovers every navigation key from its mapping |
| Keymap.ArrowRoundTrip | ps2demo/keyboard.c:143-147 | the inverse table recovers every arrow key from its mapping |
| Keymap.KeypadRoundTrip | ps2demo/keyboard.c:149-166 | the inverse table recovers every keypad key from its mapping |
| Keymap.LockRoundTrip | ps2demo/keyboard.c:168-170 | the inverse table recovers both lock keys from their mappings |
| Keymap.GuiRoundTrip | ps2demo/keyboard.c:172-174 | the inverse table recovers both GUI keys from their mappings |
| Keymap.MediaRoundTrip | ps2demo/keyboard.c:176-184 | the inverse table recovers every multimedia key from its mapping |
| Keymap.BrowserRoundTrip | ps2demo/keyboard.c:186-193 | the inverse table recovers every browser key from its mapping |
| Keymap.ApplicationRoundTrip | ps2demo/keyboard.c:195-198 | the inverse table recovers every application key from its mapping |
| Keymap.AcpiRoundTrip | ps2demo/keyboard.c:200-203 | the inverse table recovers every ACPI key from its mapping |
| Keymap.InternationalRoundTrip | ps2demo/keyboard.c:205-212 | the inverse table recovers every international key from its mapping |
| Keymap.KeyForLookup | ps2demo/keyboard.c:42-212 | for every mapped keycode, the inverse table applied to its mapping gives back that keycode |
| Keymap.LookupInjective | ps2demo/keyboard.c:42-212 | two keycodes with the same nonzero (code, E0) mapping are the same keycode |
| Keymap.LookupExamples | ps2demo/keyboard.c:42-170 | KC_A is (0x1C, no E0); KC_RALT is (0x11, E0) and KC_LALT is (0x11, no E0); KC_PENT is (0x5A, E0) and KC_ENT is (0x5A, no E0); KC_PSCR is (0x7C, E0) |
| Ps2Device.CallBytes | ps2demo/ps2_scancodes.h:9 | only make and break calls carry bytes; a make call is its code alone, a break call is F0 then the code; Wire applies it call by call (WireAppend, WireWithoutKeyCalls) |
| Ps2Device.WireAppend | ps2demo/ps2_scancodes.h:9 | the bytes of two call sequences in a row are the bytes of the first, then those of the second |
| Ps2Device.WireWithoutKeyCalls | ps2demo/ps2_scancodes.h:9 | bus initialisation and bus task calls put no byte on the wire |
| Ps2Device.EventWire | ps2demo/keyboard.c:349-375 | one key event is sent as [E0]? [F0]? code: E0 when extended, F0 on release, then the make code |
| Ps2Device.Decode | ps2demo/ps2_scancodes.h:188-190 | whatever the decoder accepts is exactly the wire form of the event it returns, and that event's code is not a prefix byte |
| Ps2Device.DecodeBody | ps2demo/ps2_scancodes.h:188-190 | after an optional E0, a release is F0 then the code and a press is the code alone |
| Ps2Device.DecodeEventCalls | ps2demo/ps2_scancodes.h:188-190 | every event whose code is not a prefix byte is decoded back from its own wire bytes |
| Ps2Device.PrefixCodesAreLost | ps2demo/ps2_scancodes.h:188-190 | no event, press or release, whose code is one of the prefix bytes E0, E1, F0 can be read back from its bytes, which is why key codes must avoid the prefixes |
| Emulator.Elapsed | ps2demo/keyboard.c:299-301 | the unsigned 32-bit difference of two timer readings: the plain difference without a wrap, and the difference plus 2^32 after a wrap |
| Emulator.ElapsedLater | ps2demo/keyboard.c:299 | d milliseconds after t (mod 2^32), the elapsed time since t is d |
| Emulator.ElapsedLaterLater | ps2demo/keyboard.c:301 | between t+d and t+e (mod 2^32), the elapsed time is e-d |
| Emulator.Valid | ps2demo/keyboard.c:8-27 | the invariant (a held key has a nonzero, non-prefix code; nothing is held in USB mode) holds of the static initial values; start-up keeps it from an idle state, as at reset (EmulatorProperties.InitialValid, PostInitValid); key records, housekeeping passes and rate changes keep it from any valid state (ProcessRecordValid, HousekeepingValid, SetTypematicRateValid, RunTicksValid) |
| Emulator.ProcessRecord | ps2demo/keyboard.c:321-389 | a record passed on to the USB stack changes nothing and issues no call; no record changes the mode or the timing settings; which records reach the bus and what they send is EmulatorProperties.ProcessRecordSilent, ProcessPress, ProcessRelease and HostRecoversKey |
| Emulator.SendMapped | ps2demo/keyboard.c:343-381 | the calls are exactly those of one key event with the mapping's code and prefix, a release for a release; the repeat is armed exactly on a press; the mode is kept and the record is consumed |
| Emulator.ModeCheck | ps2demo/keyboard.c:270-288 | afterwards the mode is the pin's; the only possible call is the bus initialisation; in USB mode either nothing is held or nothing changed (EmulatorProperties.ModeFollowsPin, ModeCheckIdempotent) |
| Emulator.RepeatDue | ps2demo/keyboard.c:295-301 | only a held key is due; at the instant of its press a key is due only when both the delay and the rate are 0 (EmulatorProperties.RepeatSchedule, StandardRepeatTiming) |
| Emulator.RepeatTick | ps2demo/keyboard.c:295-313 | calls are issued exactly when the key is due, and then they are one press event of the held key; the record is unchanged or has only its last-repeat time set to now (EmulatorProperties.RepeatSchedule, RepeatRetriedAfterFailedSend) |
| Emulator.Housekeeping | ps2demo/keyboard.c:268-318 | afterwards the mode is the pin's; with the pin low the bus task runs; the timing settings are kept (EmulatorProperties.HousekeepingIdleInUsb, HousekeepingToUsb, HousekeepingToPs2, RepeatSchedule) |
| Emulator.PostInit | ps2demo/keyboard.c:241-265 | the mode is the second pin reading and the typematic record is kept; the only possible call is the bus initialisation, and with the pin low it is made (EmulatorProperties.PostInitMode) |
| Emulator.SetTypematicRate | ps2demo/keyboard.c:406-410 | the delay and the rate are the given ones, and the new state satisfies the invariant exactly when the old one did (EmulatorProperties.SetTypematicRateEffect) |
| EmulatorProperties.ProcessRecordSilent | ps2demo/keyboard.c:327-388 | a key record emits driver calls exactly when the user hook lets it through, the mode is PS/2 and the key is mapped; otherwise the state is unchanged; the record goes on to USB exactly when the hook lets it through in USB mode |
| EmulatorProperties.ProcessPress | ps2demo/keyboard.c:343-383 | a mapped press in PS/2 mode sends [E0]? and the make code, E0 exactly for extended keys; it arms the repeat with that code and flag, with the current time as press and last-repeat time; the mode, delay and rate are kept; the record is consumed |
| EmulatorProperties.ProcessRelease | ps2demo/keyboard.c:364-383 | a mapped release in PS/2 mode sends [E0]? and the break code; it clears the repeat even if another key is held; nothing else changes; the record is consumed |
| EmulatorProperties.HostRecoversKey | ps2demo/keyboard.c:343-381 | decoding the bytes of a mapped key's record gives back the key and whether it was pressed or released |
| EmulatorProperties.ProcessRecordExamples | ps2demo/keyboard.c:343-381 | the exact wire bytes: A press 1C, A release F0 1C, RALT press E0 11, RALT release E0 F0 11, LALT press 11 |
| EmulatorProperties.PressThenRelease | ps2demo/keyboard.c:343-381 | a press then a release of the same mapped key sends its make sequence, then its break sequence with the same code and prefix, and leaves nothing held |
| EmulatorProperties.ModeFollowsPin | ps2demo/keyboard.c:270-288 | after the check the mode equals the pin; Init is issued exactly on an edge to PS/2; an edge to USB clears only the repeat's active flag; without an edge nothing changes |
| EmulatorProperties.ModeCheckIdempotent | ps2demo/keyboard.c:272 | a second check with the same pin level finds no edge and issues nothing |
| EmulatorProperties.HousekeepingIdleInUsb | ps2demo/keyboard.c:272-291 | in USB mode with the pin high, a housekeeping pass changes nothing and calls nothing |
| EmulatorProperties.HousekeepingToUsb | ps2demo/keyboard.c:272-291 | from a valid state, a pass with the pin high issues no call and leaves USB mode with nothing held |
| EmulatorProperties.HousekeepingToPs2 | ps2demo/keyboard.c:272-292 | from a valid state in USB mode, a pass with the pin low switches to PS/2, initialises the bus, runs the bus task and sends nothing more |
| EmulatorProperties.PostInitMode | ps2demo/keyboard.c:241-258 | at start-up the mode is the second pin reading, whatever the first one was; Init is issued exactly in PS/2 mode; nothing else changes |
| EmulatorProperties.RepeatSchedule | ps2demo/keyboard.c:291-313 | a PS/2 pass calls the bus task, then re-sends [E0]? make exactly when a key is held and (now - press) mod 2^32 >= delay and (now - last) mod 2^32 >= rate; the last-repeat time becomes now exactly when it was due and the driver accepted the make code; nothing else changes |
| EmulatorProperties.RepeatIsPress | ps2demo/keyboard.c:302-308 | from a valid state, the bytes a due repeat asks the driver to send read as a press of the held key |
| EmulatorProperties.RepeatRetriedAfterFailedSend | ps2demo/keyboard.c:303-308 | when the driver refuses the repeated make code, E0 and the make code were still requested, the state is unchanged and the repeat is still due |
| EmulatorProperties.StandardRepeatTiming | ps2demo/keyboard.c:299-308 | with delay 500 and rate 33, a key pressed at t does not repeat at t+0 to t+499, repeats at t+500, is then silent from t+500 to t+532 and repeats at t+533, all mod 2^32 |
| EmulatorProperties.IdleRunSendsNoKeys | ps2demo/keyboard.c:268-318 | any run of housekeeping passes that starts with nothing held sends no make or break code, puts no byte on the wire and ends with nothing held |
| EmulatorProperties.UsbSwitchStopsRepeat | ps2demo/keyboard.c:283-295 | after a pass that sees the pin high, no later run of passes puts a byte on the wire, whatever the pin does |
| EmulatorProperties.SettingsKept | ps2demo/keyboard.c:241-389 | key records, housekeeping and start-up never change the typematic delay or rate |
| EmulatorProperties.SetTypematicRateEffect | ps2demo/keyboard.c:406-410 | setting the rate changes the delay and the rate to the given values and nothing else |
| EmulatorProperties.InitialValid | ps2demo/keyboard.c:8-27 | the static initial state satisfies the invariant, and so does start-up in either mode |
| EmulatorProperties.PostInitValid | ps2demo/keyboard.c:241-265 | start-up from a valid state with nothing held keeps the invariant |
| EmulatorProperties.ProcessRecordValid | ps2demo/keyboard.c:321-389 | key records keep the invariant (a held key has a real code, and nothing is held in USB mode) |
| EmulatorProperties.HousekeepingValid | ps2demo/keyboard.c:268-318 | housekeeping keeps the invariant |
| EmulatorProperties.SetTypematicRateValid | ps2demo/keyboard.c:406-410 | setting the rate keeps the invariant |
| EmulatorProperties.RunTicksValid | ps2demo/keyboard.c:268-318 | any run of housekeeping passes keeps the invariant |
| EmulatorProperties.NoRepeatInUsb | ps2demo/keyboard.c:283-295 | in a valid USB-mode state no repeat is due, and a pass with the pin high issues nothing |
| Firmware.Keyboard.constructor | ps2demo/keyboard.c:8-27 | the static initial values: USB mode, nothing held, delay 500, rate 33, no calls yet; the invariant holds |
| Firmware.Keyboard.IsUsbMode | ps2demo/keyboard.c:224-226 | is_usb_mode returns the mode flag |
| Firmware.Keyboard.IsPs2Mode | ps2demo/keyboard.c:228-230 | is_ps2_mode is the negation of is_usb_mode |
| Firmware.Keyboard.PostInit | ps2demo/keyboard.c:241-265 | the fields and the trace after start-up are those of Emulator.PostInit, and the invariant is kept when nothing is held |
| Firmware.Keyboard.CheckMode | ps2demo/keyboard.c:270-288 | the fields and the trace after the mode check are those of Emulator.ModeCheck |
| Firmware.Keyboard.RepeatHeldKey | ps2demo/keyboard.c:295-313 | the typematic fields and the trace after the repeat block are those of Emulator.RepeatTick |
| Firmware.Keyboard.Housekeeping | ps2demo/keyboard.c:268-318 | the fields and the trace after a pass are those of Emulator.Housekeeping, and the invariant is kept |
| Firmware.Keyboard.ProcessRecord | ps2demo/keyboard.c:321-389 | the answer, the fields and the trace are those of Emulator.ProcessRecord, and the invariant is kept |
| Firmware.Keyboard.SendMapped | ps2demo/keyboard.c:343-381 | the fields and the trace after sending a mapped key are those of Emulator.SendMapped |
| Firmware.Keyboard.SetTypematicRate | ps2demo/keyboard.c:406-410 | the fields are those of Emulator.SetTypematicRate, no call is issued, and the invariant is kept |

## Left out

- Debug output: every `uprintf` is I/O only.
- Pin setup and delays: `keyboard_pre_init_kb` only configures the pin and calls the user hook, and `wait_ms` only waits. The pin readings are parameters.
- Bus driver internals: the clock and data signalling and the ACK handling of `ps2_device_init`, `ps2_device_task` and the two send functions are not part of this model. These calls are trace events.
  - Only the answer to the repeated make code is an input, because it is the only answer the firmware acts on.
- The USB stack and the pass-through hooks are foreign calls with no PS/2 effect. This covers `led_update_kb`, `matrix_init_kb`, `matrix_scan_kb` and the `*_user` callbacks.
  - `process_record_user`'s answer is an input.
- Numeric keycode values: the `KC_*` numbers come from QMK headers that are not part of this model. Keycodes are a datatype, and `Other(code)` stands for every keycode the switch does not name, KC_PAUS among them.
- Multi-byte Print Screen and Pause sequences: the header's comments describe them, but the firmware never produces them. KC_PSCR is sent as E0 7C, and Pause has no mapping.
- Firmware.Keyboard.ProcessRecord: both timer readings of a press are one `now`. This does not model a millisecond tick between the two reads.

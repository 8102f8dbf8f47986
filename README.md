# Spanish Dvorak ErgoDox layout: macros and status LEDs

A model of the behaviour in the ErgoDox "dvorak_spanish" keymap
(`ergodox/dvorak_spanish/keymap.c`): the tap-vs-hold macro dispatcher
`action_get_macro` and the status-LED routine `matrix_scan_user`.

- `keycodes.dfy` (module `KeyCodes`): the key codes the macros send, the
  `Register`/`Unregister` events (one per `register_code`/`unregister_code`
  call), and `Apply`, the set of codes the firmware holds after a sequence of
  events. `Tap` is the press-then-release of a key combination, nested so that
  the first key pressed is the last released.
- `machine.dfy` (module `MachineInts`): the `uint8` and `uint16` types of the
  C interface.
- `macros.dfy` (module `Macros`): the macro ids and `KEY_TAP_SLOW` = 90;
  `Dispatch`, the effect of one dispatcher call on the shared timestamp and
  the events it sends; the class `Dispatcher` with the static `key_timer`
  (`keyTimer`) and the event log, whose `ActionGetMacro` follows the source
  case by case and is proved to equal `Dispatch`; and the lemmas about it.
- `leds.dfy` (module `StatusLeds`): `Indicator`, the four LEDs as a function
  of the topmost layer and the host LED mask, and the class `Board` whose
  `MatrixScanUser` switches the LEDs off and on step by step and is proved to
  end in `Indicator`'s state.

Timer readings are parameters: `now` is what `timer_read()` and
`timer_elapsed()` read during one call. `timer_elapsed(t)` is modelled as the
16-bit wrapping difference `now - t`. This is an assumption: the firmware's
definition is not part of this model. The topmost layer
(`biton32(layer_state)`) and the host LED mask (`host_keyboard_leds()`) are
parameters of the LED routine. How the firmware reacts to register and
unregister calls is modelled as a set of held codes: register adds the code,
unregister removes it.

The caps-lock LED tests bit 2 of the host LED mask (`USB_LED_CAPS_LOCK` is
defined as 2). In the boot keyboard LED report of the USB HID specification
(version 1.11, appendix B.1) Caps Lock is bit 1 and bit 2 is Scroll Lock. The
model follows the code and tests bit 2.

All five timed macros share one timestamp, so a key-up measures the time from
the most recent timed key-down, which need not be its own. The model keeps
this behaviour and states it (`SharedTimerCrossTalk`, `CrossTalkExample`).

The macros also share modifiers: both braces hold right shift and both
brackets hold left alt. The key-up of one of them releases the modifier even
while the other is still down (`SharedModifierReleasedEarly`). For a key-down
immediately followed by its own key-up, the held set afterwards equals the one
before exactly when none of the codes the pair touched (the modifier, and on a
tap the tapped keys) was held before (`PressReleaseRestoresExactly`).

## Model

| member | source | states |
|---|---|---|
| KeyCodes.Apply | ergodox/dvorak_spanish/keymap.c:228-235 | the codes held after a run of register/unregister calls: a code the run never mentions keeps its state, and the code of the last call is held exactly when that call registers it |
| KeyCodes.TapIsNested | ergodox/dvorak_spanish/keymap.c:232-235 | a tap presses its keys in order and then releases them in reverse order |
| KeyCodes.TapReleasesItsKeys | ergodox/dvorak_spanish/keymap.c:232-235 | after a tap every key it pressed is released and every other code is as before |
| Macros.Elapsed | ergodox/dvorak_spanish/keymap.c:231 | the elapsed time on the 16-bit timer: the stored time plus the result is the current time modulo 65536, and it is the plain difference when the timer has not wrapped |
| Macros.Dispatcher.constructor | ergodox/dvorak_spanish/keymap.c:220 | the static timestamp starts at zero and nothing has been sent |
| Macros.Dispatcher.ActionGetMacro | ergodox/dvorak_spanish/keymap.c:222-308 | one call appends exactly the events of `Dispatch` to the log, in order, sets the timestamp as `Dispatch` does, and returns the empty macro |
| Macros.PressHoldsModifier | ergodox/dvorak_spanish/keymap.c:225-288 | a timed key-down stores the current time and registers exactly one code: right shift for the braces, left alt for the brackets, right alt for MRALT |
| Macros.QuickReleaseTypesCombination | ergodox/dvorak_spanish/keymap.c:229-281 | a brace or bracket key-up within 90 ticks sends, in order: release the modifier, right alt down, key down, key up, right alt up, with key quote, backslash, left or right bracket; the timestamp is unchanged |
| Macros.QuickReleaseOfMraltTapsF12 | ergodox/dvorak_spanish/keymap.c:289-294 | an MRALT key-up within 90 ticks sends right alt up, F12 down, F12 up |
| Macros.SlowReleaseOnlyReleases | ergodox/dvorak_spanish/keymap.c:229-294 | a timed key-up after 90 ticks or more only releases the modifier and leaves the timestamp unchanged |
| Macros.CapsPassesThrough | ergodox/dvorak_spanish/keymap.c:298-305 | CAPS sends one caps-lock register on key-down and one unregister on key-up whatever the timer reads, never changes the timestamp, and a press and release leave caps lock released and all else as before |
| Macros.UnknownIdIsIgnored | ergodox/dvorak_spanish/keymap.c:224-306 | an id above 5 sends nothing and leaves the timestamp unchanged |
| Macros.ReleaseClearsTouched | ergodox/dvorak_spanish/keymap.c:229-295 | a key-up of a timed macro, after any history, releases the modifier and (on a tap) every key of the tap, and changes no other code |
| Macros.PressReleaseIsBalanced | ergodox/dvorak_spanish/keymap.c:226-296 | a key-down immediately followed by the key-up of the same timed macro releases the modifier and (on a tap) every key of the tap, and changes no other code |
| Macros.PressReleaseRestoresHeld | ergodox/dvorak_spanish/keymap.c:226-296 | for a key-down immediately followed by its own key-up: if none of the macro's codes was held before the key-down, the held set after the key-up is the one before the key-down |
| Macros.PressReleaseRestoresExactly | ergodox/dvorak_spanish/keymap.c:226-296 | for a key-down immediately followed by its own key-up, the held set is given back if and only if none of the codes the pair touched (modifier, and on a tap the tapped keys) was held before |
| Macros.SharedModifierReleasedEarly | ergodox/dvorak_spanish/keymap.c:228-275 | after key-downs of two timed macros with the same modifier, the second one's key-up leaves that modifier released although the first key is still down |
| Macros.SharedTimerCrossTalk | ergodox/dvorak_spanish/keymap.c:220-296 | after timed key-downs of a and then b, a's key-up measures time from b's key-down: it taps exactly when it comes within 90 ticks of b's press |
| Macros.CrossTalkExample | ergodox/dvorak_spanish/keymap.c:225-283 | open brace held from 0 to 100 (a hold) still types the brace when close bracket was pressed at 80 |
| Macros.TapReleasesHeldRightAlt | ergodox/dvorak_spanish/keymap.c:229-281 | a quick brace or bracket key-up releases right alt even when it was held before (for instance by MRALT) |
| StatusLeds.CapsLockOn | ergodox/dvorak_spanish/keymap.c:342 | caps lock counts as on exactly when bit 2 of the host LED mask is set |
| StatusLeds.Indicator | ergodox/dvorak_spanish/keymap.c:316-346 | the board LED is off; LED 1 is on iff the layer is 3 or caps lock is on; LED 2 iff the layer is 2 or 3; LED 3 iff the layer is 1 or 3 |
| StatusLeds.Board.MatrixScanUser | ergodox/dvorak_spanish/keymap.c:316-346 | after a scan the four LEDs are exactly `Indicator(layer, mask)`, whatever they were before |
| StatusLeds.Board.ScanTwice | ergodox/dvorak_spanish/keymap.c:316-346 | two scans with the same layer and mask leave the same LEDs lit, namely `Indicator(layer, mask)` |
| StatusLeds.LayerPatternsDistinct | ergodox/dvorak_spanish/keymap.c:324-339 | for every host LED mask, layers 0 to 3 show four different patterns and every other layer shows the layer-0 pattern |

## Left out

- The `keymaps` layout table and `fn_actions` (keymap.c:40-218): constant data built by firmware macros whose matrix placement is defined in headers that are not part of this model; there is no behaviour in them.
- `matrix_init_user` (keymap.c:311-313): its body is empty.
- `KEY_TAP_FAST` and the other unused LED bit constants (keymap.c:30-37): the code never uses them.
- The firmware calls `register_code`, `unregister_code`, `timer_read`, `timer_elapsed`, `biton32`, `layer_state`, `host_keyboard_leds` and the `ergodox_*_led_*` drivers are not part of this model: register/unregister are log entries, the timer reading, topmost layer and LED mask are parameters, the LED drivers are the fields of `Board`.
- Macros.Elapsed: assumes `timer_elapsed` is the 16-bit wrapping difference from the stored time to the current reading; it is defined in the firmware, which is not modelled.
- The `record` and `opt` arguments of `action_get_macro` are reduced to the `pressed` flag; the rest of the key record is not read by the code.
- `MACRO_NONE` is modelled as the empty event sequence returned by `ActionGetMacro`.
- USB HID reporting, matrix scanning, debouncing, real-time behaviour and the layer stack belong to the firmware and are not modelled.

# Finger augmentation grip controller, modelled in Dafny

The project models `finger_aug`, a small BeagleBone grip controller. It reads a
potentiometer through a 12-bit ADC and turns the reading into a grip level
0..5. It drives a servo from the reading, shows `ON<level>` on an HT16K33
display, and stops when the button is pressed. Two copies of the class exist,
`project_01/6_finger_augmentation.1.py` and
`python/6_fin_aug.backup/6_finger_augmentation.1.py`. They differ only in
comments and line numbers, so one model covers both.

Files:

- `grip.dfy` (module `Grip`) holds the pure arithmetic:
  - quantization `raw // 16`;
  - the duty cycle `q / 50 + 3`, on `real`;
  - Python's `int()` as truncation toward zero;
  - the level `abs(int(duty) - 8)`;
  - the display text `"ON" + str(level)`, with `str` for non-negative integers and its inverse.
- `devices.dfy` (module `Devices`) holds the hardware as an event trace:
  - every GPIO, ADC, servo, display and sleep call becomes an `Event`;
  - the class `Hardware` appends the events and delivers scripted ADC and button readings;
  - `Replay` folds a trace into the `Panel` an observer sees: LEDs, display text and colon, the last servo command, released resources.
- `controller.dfy` (module `Controller`) holds the class `FingerAug`:
  - its field `value` is the change-detection cache, `None` at start;
  - its methods are `ShowAnalogValue`, `Run` and `Cleanup`;
  - each method is proved against a function giving its events: `ShowEvents`, `RunEvents`, `CleanupEvents`.
- `properties.dfy` (module `ControllerProperties`) proves what those functions promise:
  - the display is written iff the quantized sample changed;
  - skipping a write is harmless;
  - the ordering inside each iteration;
  - the loop stops on the first 0 reading, leaving the device off;
  - the servo commands in order, and the number of display writes;
  - `cleanup` leaves the device safe from any prior state.
- `scenarios.dfy` (module `Scenarios`) holds concrete runs on fresh hardware, proved from the method contracts.

The code and its comments disagree in four places. The model follows the code.
The backup copy's comment at line 147 says the level runs "0~7"; for a 12-bit
reading it is in fact 0..5 (`Grip.LevelRange`). The backup copy's comments at
lines 135 and 143 speak of dividing by 4 and by 8; the code divides by 16 in
both copies. The docstring of `duty_cycle_calc` (project_01 line 169) calls its
result the grip "level"; the function returns the servo duty cycle, and the
level is computed from it in `show_analog_value`. The comment at project_01
line 196 says the button branch shows the "ON" state; the code shows "OFF" and
switches the red LED on.

One might expect `cleanup` to follow every `run`. The code calls it only when
a `KeyboardInterrupt` arrives (project_01 lines 238-244). So the model makes no
claim that `Run` is followed by `Cleanup`, and `CleanupAfterAnyTrace` states
instead that `cleanup` leaves the device safe after any prefix of a run.

## Model

| member | source | states |
|---|---|---|
| `Grip.Quantize` | project_01/6_finger_augmentation.1.py:144-147 | the quantized sample is floor division by 16 (`q*16 <= raw < q*16+16`, Python's `//`); a 12-bit reading 0..4095 gives 0..255 |
| `Grip.DutyCycle` | project_01/6_finger_augmentation.1.py:168-174 | `duty_cycle_calc` as `q/50 + 3` on the reals: at least 3.0 for a non-negative sample, within [3.0, 8.1] for q in 0..255 |
| `Grip.DutyCycleMonotone` | python/6_fin_aug.backup/6_finger_augmentation.1.py:165-171 | a larger sample never asks the servo for a smaller duty cycle |
| `Grip.Trunc` | project_01/6_finger_augmentation.1.py:151 | Python's `int()` on the duty cycle truncates toward zero: the floor for non-negative values, the ceiling for negative ones |
| `Grip.Level` | project_01/6_finger_augmentation.1.py:150-151 | the level `abs(int(q/50+3) - 8)` equals the integer form `abs(q/50 - 5)` for every q >= 0 |
| `Grip.LevelRange` | python/6_fin_aug.backup/6_finger_augmentation.1.py:147-148 | for q in 0..255 the level is `5 - q/50`, lies in 0..5 (tighter than the "0~7" comment), is 5 exactly when q < 50 and 0 exactly when q >= 250 |
| `Grip.LevelAntitone` | project_01/6_finger_augmentation.1.py:150 | turning the potentiometer up never raises the grip level |
| `Grip.DecimalString` | project_01/6_finger_augmentation.1.py:151 | `str(level)`: at least one decimal digit, no leading zero, one digit exactly when the level is below 10 |
| `Grip.DecimalRoundTrip` | project_01/6_finger_augmentation.1.py:151 | reading back the digits `str` produced gives the number again |
| `Grip.OnText` | project_01/6_finger_augmentation.1.py:151-152 | the display text is "ON" followed by the decimal digits of the level, which read back as the level; no leading zero, and exactly three characters iff the level is below 10 |
| `Grip.OnTextTwelveBit` | python/6_fin_aug.backup/6_finger_augmentation.1.py:144-149 | for a 12-bit reading the text is exactly "ON" plus one digit `5 - q/50`, three characters |
| `Grip.OnTextDistinct` | project_01/6_finger_augmentation.1.py:152 | a level text is never "OFF" or "DEAD" |
| `Grip.SampleValues` | project_01/6_finger_augmentation.1.py:147-152 | sample points: raw 0, 15, 16, 31, 4095 give 0, 0, 1, 1, 255; levels of 0, 100, 250 are 5, 3, 0; samples 1 and 25 both show "ON5" |
| `Controller.Iterations` | project_01/6_finger_augmentation.1.py:180-200 | the loop runs through the first button reading of 0 and no further: no earlier reading is 0, and it stops iff its last reading is 0; without a press it runs as long as the inputs last |
| `Controller.FingerAug.constructor` | project_01/6_finger_augmentation.1.py:100 | the cache `value` starts as `None` |
| `Controller.FingerAug.ShowAnalogValue` | project_01/6_finger_augmentation.1.py:135-164 | reads one sample; returns the quantized sample, not the level, and stores it in `value`; issues the read, then colon on, "ON"+level and a 0.1 s pause only when the sample differs from the stored value |
| `Controller.FingerAug.Run` | project_01/6_finger_augmentation.1.py:177-200 | the trace grows by exactly the loop's events; it ends in phase Stopped iff a button reading of 0 occurs; `value` ends as the last sample read; exactly as many readings are consumed as iterations ran |
| `Controller.FingerAug.Cleanup` | project_01/6_finger_augmentation.1.py:205-220 | issues in order: text "DEAD", colon off, red low, green low, GPIO cleanup, servo cleanup, and nothing else |
| `ControllerProperties.ShowPanel` | project_01/6_finger_augmentation.1.py:154-161 | one call changes the panel only when the sample changed, and then only by turning the colon on and showing "ON"+level |
| `ControllerProperties.ShowTallies` | project_01/6_finger_augmentation.1.py:154-159 | one call writes exactly the text "ON"+level once if the quantized sample differs from the stored value (always from `None`, the first call) and writes nothing otherwise; it sends no servo command |
| `ControllerProperties.ShowCounts` | python/6_fin_aug.backup/6_finger_augmentation.1.py:151-156 | one call neither sets the green LED high nor shows "OFF" |
| `ControllerProperties.ShowTextIsLevel` | project_01/6_finger_augmentation.1.py:152-156 | the text "ON"+level of the new sample occurs iff the sample changed, and any text written is that one |
| `ControllerProperties.ShowTwiceWritesOnce` | project_01/6_finger_augmentation.1.py:154-161 | two calls with the same raw sample write the display once, or not at all if the sample was already stored |
| `ControllerProperties.ShowChangedWritesTwice` | python/6_fin_aug.backup/6_finger_augmentation.1.py:151-158 | from a fresh controller (empty cache), two readings with different quantized samples write the display twice |
| `ControllerProperties.ShowKeepsDisplayCurrent` | python/6_fin_aug.backup/6_finger_augmentation.1.py:151-158 | if the display showed the stored sample's text, afterwards it shows the new sample's text with the colon on, write or no write; LEDs, servo and released resources are unchanged |
| `ControllerProperties.CheckPanel` | project_01/6_finger_augmentation.1.py:188-200 | the servo command sets the duty cycle of the sample; after a 0 reading the panel then shows servo 8.5, "OFF", green low and red high |
| `ControllerProperties.CheckTallies` | python/6_fin_aug.backup/6_finger_augmentation.1.py:189-202 | the end of an iteration sends the servo the sample's duty cycle and, after a press, 8.5; the only text it writes is "OFF", once, after a press |
| `ControllerProperties.CheckCounts` | project_01/6_finger_augmentation.1.py:188-200 | the end of an iteration never sets green high and shows "OFF" once exactly when the button reads 0 |
| `ControllerProperties.IterationFacts` | project_01/6_finger_augmentation.1.py:180-200 | the panel after one iteration is that of the display update on a green-high panel, followed by the servo command and button check |
| `ControllerProperties.IterationDuties` | project_01/6_finger_augmentation.1.py:188-195 | one iteration sends the servo `duty_cycle_calc(q)` and, on a press, 8.5 after it, and no other servo command |
| `ControllerProperties.IterationWrites` | project_01/6_finger_augmentation.1.py:154-158 | one iteration writes the display once if the sample changed, plus once for "OFF" on a press |
| `ControllerProperties.IterationTexts` | project_01/6_finger_augmentation.1.py:154-158 | the texts one iteration writes are "ON"+level if the sample changed, then "OFF" if the button reads 0, and nothing else |
| `ControllerProperties.IterationCounts` | project_01/6_finger_augmentation.1.py:182-200 | one iteration sets the green LED high exactly once and shows "OFF" exactly when the button reads 0 |
| `ControllerProperties.IterationPanel` | python/6_fin_aug.backup/6_finger_augmentation.1.py:181-202 | after an iteration without a press the green LED is on, the display shows the current level, the servo holds the sample's duty cycle; after a press red is on, green off, "OFF" shown, servo 8.5 |
| `ControllerProperties.ShowOrder` | project_01/6_finger_augmentation.1.py:182-185 | the iteration opens with green high followed directly by the one ADC read of the sample; the display update neither drives the servo nor checks the button |
| `ControllerProperties.CheckOrder` | project_01/6_finger_augmentation.1.py:188-200 | the end of an iteration opens with the servo command `duty_cycle_calc(q)` followed directly by the one button check; it reads no ADC |
| `ControllerProperties.IterationOrder` | project_01/6_finger_augmentation.1.py:180-192 | an iteration is green high, then its only ADC read; after the display update, the servo command `duty_cycle_calc(q)` and then its only button check; every read follows green high and every check a servo command |
| `ControllerProperties.StopsIffPressed` | project_01/6_finger_augmentation.1.py:192 | the loop stops iff some button reading, within the inputs supplied, is 0 |
| `ControllerProperties.RunValueIsLastSample` | project_01/6_finger_augmentation.1.py:161 | after `run` the stored value is the quantized sample of the last iteration, or unchanged if none ran |
| `ControllerProperties.RunDuties` | python/6_fin_aug.backup/6_finger_augmentation.1.py:189-197 | the servo commands of a run are the duty cycles of each iteration's sample, in order; after a press one more follows, 8.5, and it is the last |
| `ControllerProperties.RunWrites` | project_01/6_finger_augmentation.1.py:154-158 | a run writes the display once per iteration whose sample differs from the one before it, plus once for "OFF" after a press |
| `ControllerProperties.RunCounts` | project_01/6_finger_augmentation.1.py:182 | the green LED is set high once per iteration; "OFF" is shown once if the loop stopped and never otherwise, so no iteration follows the press |
| `ControllerProperties.RunEndsWithStop` | project_01/6_finger_augmentation.1.py:192-200 | a stopped run's events end with servo 8.5, text "OFF", green low, red high, in that order |
| `ControllerProperties.RunPanel` | project_01/6_finger_augmentation.1.py:180-200 | a stopped run leaves red on, green off, "OFF" shown, servo at 8.5; while still running the display shows the stored sample's level and the green LED is on |
| `ControllerProperties.RunOrder` | python/6_fin_aug.backup/6_finger_augmentation.1.py:181-193 | throughout a run every ADC read directly follows green high, every button check directly follows a servo command, and the run opens with green high |
| `ControllerProperties.CleanupLeavesDeviceSafe` | project_01/6_finger_augmentation.1.py:205-220 | after `cleanup` both LEDs are low, the colon is off, "DEAD" is shown, GPIO and servo are released, and the servo command is untouched |
| `ControllerProperties.CleanupAfterAnyTrace` | python/6_fin_aug.backup/6_finger_augmentation.1.py:207-222 | whatever preceded it, such as an interrupted run, `cleanup` leaves the device in that safe state |
| `ControllerProperties.CleanupIdempotent` | project_01/6_finger_augmentation.1.py:205-220 | a second `cleanup` changes nothing visible |
| `ControllerProperties.CleanupOnceEach` | python/6_fin_aug.backup/6_finger_augmentation.1.py:207-222 | the six cleanup commands each occur exactly once |
| `Scenarios.SameSampleTwice` | project_01/6_finger_augmentation.1.py:154-164 | from a fresh controller, the same reading twice writes the display exactly once and both calls return the quantized sample |
| `Scenarios.DifferentSamples` | project_01/6_finger_augmentation.1.py:154-164 | from a fresh controller, two readings that quantize differently write the display twice |
| `Scenarios.PressScript` | project_01/6_finger_augmentation.1.py:177-200 | readings 16 and 400 with the button pressed on the second reading: the loop runs two iterations and stops |
| `Scenarios.PressScriptTexts` | project_01/6_finger_augmentation.1.py:154-158 | on that script the texts written are the level text of sample 1, that of sample 25, then "OFF" |
| `Scenarios.PressScriptDuties` | project_01/6_finger_augmentation.1.py:188-195 | on that script the servo gets duty(1), duty(25), then 8.5 |
| `Scenarios.PressOnSecondIteration` | project_01/6_finger_augmentation.1.py:177-200 | readings 16 and 400, button pressed on the second iteration: the loop stops; the servo gets duty(1), duty(25), 8.5; the display texts are exactly "ON5", "ON5", "OFF"; the device ends in the off state |

## Left out

- Pin configuration in `__init__` and `_setup` is hardware binding with no logic, so it is not modelled. The same holds for the pin names, I2C bus and address, and the `Servo`/`HT16K33` constructors. The constructor only takes the hardware object and sets `value` to `None`.
- `reset_time` is stored but never read, so it is not modelled.
- The `__main__` block is not modelled: the `print` calls, the `try`/`except KeyboardInterrupt` and the call to `cleanup` on interrupt. An interrupt arrives asynchronously.
- The Adafruit_BBIO GPIO/ADC/PWM libraries and the `ht16k33` and `servo` modules are not part of this model. They appear only as recorded events and scripted readings. How the display renders text and how `servo.scale` and `servo.cleanup` move the servo are not captured.
- `Devices.Apply`: the model assumes that `display.text` leaves the colon as it was and that `set_colon` leaves the text as it was. The `ht16k33` driver is not part of this model. The "colon on" conclusions of `ShowKeepsDisplayCurrent`, `IterationPanel` and `RunPanel` rest on this assumption.
- `time.sleep(0.1)` is recorded as a `Pause` event. Timing is not modelled.
- Floating-point behaviour of `q / 50` is not modelled. The duty cycle is exact on `real`, and the level is proved equal to its integer form `abs(q // 50 - 5)` for every q >= 0.
- `Grip.Level`: with IEEE doubles, `int(q/50 + 3)` equals `q // 50 + 3` only while the quotient is represented precisely enough. This holds for every quantized 12-bit reading (0..255) and far beyond, but fails for very large q (for example `q = 50 * 2^52 + 49`). Because the raw reading is an unbounded integer here, the model's level differs from the source's for such huge values.
- The ADC reading is modelled as an unbounded integer. The 12-bit range is a hypothesis of the bound lemmas, not a type restriction.
- `Controller.FingerAug.Run`: the source loop `while(1)` runs until the button reads 0. The model runs over finite scripts of readings. When a script runs out before a press, `Run` returns in phase `Running` instead of polling forever. This is the model's stand-in for nontermination.
- `Devices.Hardware.ReadRaw` and `Devices.Hardware.GpioInput` require a reading left in their script. The real ADC and pin always deliver one.

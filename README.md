# PPM memory switch: a Dafny model

The firmware runs on an ATtiny. It measures the width of radio-control PPM
pulses on INT0 and calibrates a neutral width from the first pulses after
power-up. After that it drives a "memory switch": deflecting the stick
forward toggles PB3, deflecting it backward toggles PB4, and each output
toggles only once per deflection. The stick has to return to the neutral
band before another toggle can happen.

The model follows the single source file
`avr-ppm-memory-switch-with-radar-pwm/avr-ppm-memory-switch-with-radar-pwm.c`:

- `word.dfy` (module `Word`): `uint16_t` and `uint8_t` as bounded integers; 16-bit wrap-around is written out as `% M16`.
- `handshake.dfy` (module `Handshake`): the handshake between the INT0 handler and the polling loops, as pure transitions.
  - `OnInt0` is the handler.
  - `Poll` is the status part of one loop iteration.
  - `pulse_status` is a `bv8`. Its flags use bit numbers 0, 1 and 2 (START, COMPLETE, STOP).
  - Of MCUCR only the ISC00 bit is kept, as `rising`. ISC01 is set and never cleared, so ISC00 alone picks the edge.
- `calibration.dfy` (module `Calibration`): the calibration done by `setup`.
  - The wrapping 16-bit sum of the recorded widths.
  - The division by `setup_counter - 1` = 4.
  - The threshold formula of line 99, evaluated exactly as avr-gcc does it.
- `latch.dfy` (module `Latch`): the latch decision of `main` as a pure step, runs over sequences of widths, and toggle counts.
- `firmware.dfy` (module `Firmware`): class `MemorySwitch`.
  - Its fields are the globals (`pulse_status`, the thresholds, PORTB3/PORTB4 and the ISC00 bit) and the loop locals (`pulse_length`, `neutral_pulse_length`, `setup_counter`, `was_last_on`).
  - `Int0` models the interrupt handler. `SetupStep` and `MainStep` each model one iteration of a `while(1)` loop.
  - Each method's postcondition ties the new state to the pure functions above.
- `scenario.dfy` (module `Scenario`): a power-up followed by four stick movements, on the pure model and on the object.

Numeric semantics:

- In avr-gcc, `uint16_t` is a 16-bit `unsigned int`. Line 99 therefore computes `n * 20`, the subtraction and `* 4` modulo 2^16. Nothing is promoted to a wider type.
- The model evaluates the formula that way for every `n`.
- No step wraps while `n * 20` fits in 16 bits, i.e. `n <= 3276`. In that range `diff40 == (n/3*4)/10`.
- From 3277 on, the thresholds come out wrong (`ThresholdsWrapAt3277`).

Two behaviours of the code differ from what one would expect. The model follows the code:

- The doc comment of `setup` (lines 64-67) says it uses five PPM pulses to average the neutral width. The code divides the sum of five recordings by 4. Line 78 sets `pulse_status` to 2, which is the COMPLETE mask rather than `1 << STATUS_STOP`.
  - If no INT0 arrives before the first poll, the first iteration of setup's loop records a spurious width of 0. Neutral is then the mean of the four real pulses that follow (`SetupStartsWithZeroSample`, `SteadyStickCalibratesToIt`).
  - If a rising edge arrives before that first poll, START wins, the zero is never recorded, and five real widths are summed and divided by 4.
- One would expect `backward < neutral < forward`. The code guarantees it only for `9 <= n <= 3276`. Below 9 the offset is 0 and both thresholds equal neutral (`ThresholdsAroundNeutral`). Above 3276 the thresholds can even be out of order, and then a width above `forward` may also lie below `backward` and toggle PB4. The latch lemmas about forward and backward deflections therefore assume ordered thresholds, which calibration yields for every neutral up to 3276 (`CalibratedOrdered`).

## Model

| member | source | states |
|---|---|---|
| `Handshake.OnInt0` | avr-ppm-memory-switch-with-radar-pwm/avr-ppm-memory-switch-with-radar-pwm.c:167-176 | The interrupt always flips the edge mode and never touches the width. On a rising edge it raises START, on a falling edge COMPLETE, and it leaves every other status bit as it was. |
| `Handshake.Poll` | avr-ppm-memory-switch-with-radar-pwm/avr-ppm-memory-switch-with-radar-pwm.c:136-162 | Flag priority: with no flag, only the counter moves, by one mod 2^16. START resets status and counter even if COMPLETE is pending. A width is delivered iff COMPLETE is pending without START; it is the counted width, and the line is left parked (STOP, no START/COMPLETE) with counter 0. A parked line is unchanged. The edge mode is never touched. |
| `Handshake.CountsTicks` | avr-ppm-memory-switch-with-radar-pwm/avr-ppm-memory-switch-with-radar-pwm.c:136-138 | With no flag set, k polls add exactly k to the width modulo 2^16. |
| `Handshake.ParkedStaysParked` | avr-ppm-memory-switch-with-radar-pwm/avr-ppm-memory-switch-with-radar-pwm.c:144-146 | After a width is consumed, any number of polls without an interrupt changes nothing: counting resumes only after a START. |
| `Handshake.MeasuresPulse` | avr-ppm-memory-switch-with-radar-pwm/avr-ppm-memory-switch-with-radar-pwm.c:136-176 | From a parked line armed for a rising edge, a full pulse is: idle polls, rising edge, restart, `ticks` counting polls, falling edge, consuming poll. It delivers exactly `ticks mod 2^16` and returns to a parked line armed for the next rising edge with the counter cleared. |
| `Handshake.SetupStartsWithZeroSample` | avr-ppm-memory-switch-with-radar-pwm/avr-ppm-memory-switch-with-radar-pwm.c:77-95 | Setup's initial status value 2 is the COMPLETE mask, so the first poll without an interrupt delivers a width of 0 and parks. |
| `Calibration.Sum16IsSumMod` | avr-ppm-memory-switch-with-radar-pwm/avr-ppm-memory-switch-with-radar-pwm.c:94-95 | The 16-bit accumulator equals the exact sum of the recorded widths modulo 2^16. |
| `Calibration.NeutralIsQuarterSum` | avr-ppm-memory-switch-with-radar-pwm/avr-ppm-memory-switch-with-radar-pwm.c:96-98 | Neutral is the exact sum of the five recordings mod 2^16, divided by 4 with truncation. It is the exact quarter-sum whenever the sum fits in 16 bits. |
| `Calibration.ThresholdsSymmetric` | avr-ppm-memory-switch-with-radar-pwm/avr-ppm-memory-switch-with-radar-pwm.c:99-101 | For every neutral, forward lies `diff40` above neutral and backward `diff40` below it, modulo 2^16: the thresholds are symmetric. |
| `Calibration.Diff40Exact` | avr-ppm-memory-switch-with-radar-pwm/avr-ppm-memory-switch-with-radar-pwm.c:99 | For n <= 3276 the 16-bit formula equals the closed form (n/3*4)/10, because floor(20n/15) - n == floor(n/3). |
| `Calibration.ThresholdsAroundNeutral` | avr-ppm-memory-switch-with-radar-pwm/avr-ppm-memory-switch-with-radar-pwm.c:99-101 | For n <= 3276: forward - n == n - backward == (n/3*4)/10, and backward <= n <= forward. Both inequalities are strict iff n >= 9. |
| `Calibration.ThresholdsAt1500` | avr-ppm-memory-switch-with-radar-pwm/avr-ppm-memory-switch-with-radar-pwm.c:99-101 | A neutral of 1500 gives thresholds 1700 and 1300. |
| `Calibration.ThresholdsWrapAt3277` | avr-ppm-memory-switch-with-radar-pwm/avr-ppm-memory-switch-with-radar-pwm.c:99-101 | At neutral 3277 the product wraps and the thresholds are 8519 and 63571: backward lies above neutral. |
| `Calibration.SteadyStickCalibratesToIt` | avr-ppm-memory-switch-with-radar-pwm/avr-ppm-memory-switch-with-radar-pwm.c:77-98 | Setup records the spurious 0 and then four widths of a stick held at v (v < 16384). The neutral it computes is exactly v. |
| `Latch.CalibratedOrdered` | avr-ppm-memory-switch-with-radar-pwm/avr-ppm-memory-switch-with-radar-pwm.c:99-101 | Thresholds computed from any neutral up to 3276 are ordered (`backward <= forward`), which is the precondition of the deflection lemmas below. |
| `Latch.Step` | avr-ppm-memory-switch-with-radar-pwm/avr-ppm-memory-switch-with-radar-pwm.c:148-160 | In the band the latch re-arms and no output changes. Outside it an engaged latch holds everything. PB4 toggles iff armed and below backward. PB3 toggles iff armed, above forward and not below backward. Never both. Latched afterwards iff outside the band and (already latched or deflected). A width equal to a threshold changes nothing. |
| `Latch.TogglesDecideOutputs` | avr-ppm-memory-switch-with-radar-pwm/avr-ppm-memory-switch-with-radar-pwm.c:153-159 | After any sequence of widths, each output differs from its start value exactly when it was toggled an odd number of times. |
| `Latch.NoNeutralAtMostOneToggle` | avr-ppm-memory-switch-with-radar-pwm/avr-ppm-memory-switch-with-radar-pwm.c:148-160 | If no width falls in the band, the two outputs together toggle at most once, and never if the latch starts engaged. |
| `Latch.HeldForwardTogglesOnce` | avr-ppm-memory-switch-with-radar-pwm/avr-ppm-memory-switch-with-radar-pwm.c:153-159 | For ordered thresholds (as calibration yields for neutral <= 3276), a non-empty run of forward deflections toggles PB3 exactly once from an armed latch (never from an engaged one), never toggles PB4, and leaves the latch engaged. |
| `Latch.ReArmTogglesAgain` | avr-ppm-memory-switch-with-radar-pwm/avr-ppm-memory-switch-with-radar-pwm.c:148-160 | For ordered thresholds (as calibration yields for neutral <= 3276), [neutral, forward, neutral, forward] toggles PB3 twice and PB4 never, from any starting state. |
| `Latch.HeldAfterNeutralTogglesOnce` | avr-ppm-memory-switch-with-radar-pwm/avr-ppm-memory-switch-with-radar-pwm.c:148-160 | For ordered thresholds (as calibration yields for neutral <= 3276), [neutral, forward, forward, forward] toggles PB3 once and PB4 never. |
| `Latch.ForwardThenBackwardKeepsPb4` | avr-ppm-memory-switch-with-radar-pwm/avr-ppm-memory-switch-with-radar-pwm.c:153-159 | For ordered thresholds (as calibration yields for neutral <= 3276), a forward deflection followed directly by a backward one never toggles PB4. |
| `Firmware.MemorySwitch.constructor` | avr-ppm-memory-switch-with-radar-pwm/avr-ppm-memory-switch-with-radar-pwm.c:71-78 | The state on entering setup's loop: thresholds 0, outputs low, latch clear, nothing recorded, rising edge armed, status 2 (COMPLETE). |
| `Firmware.MemorySwitch.Int0` | avr-ppm-memory-switch-with-radar-pwm/avr-ppm-memory-switch-with-radar-pwm.c:167-176 | The handler changes only the status and the edge mode, exactly as `OnInt0`. It keeps `Valid()` (setup's bookkeeping), and its frame leaves neutral, the thresholds and the recordings untouched. |
| `Firmware.MemorySwitch.SetupStep` | avr-ppm-memory-switch-with-radar-pwm/avr-ppm-memory-switch-with-radar-pwm.c:81-106 | One setup iteration moves the line as `Poll`, and the outputs are untouched. A consumed width is appended to the recordings. Before the fifth, the 16-bit running sum is kept and the thresholds are untouched. On the fifth, neutral becomes `Neutral(recordings)` and the thresholds `Thresholds(neutral)`. The line is then handed to main parked, armed for a rising edge, with counter 0. |
| `Firmware.MemorySwitch.RecordWidth` | avr-ppm-memory-switch-with-radar-pwm/avr-ppm-memory-switch-with-radar-pwm.c:94-104 | Appends the current width to the recordings, keeps the running sum equal to their 16-bit sum, and clears the counter. It finishes calibration exactly at the fifth recording, with neutral and thresholds as `Neutral` and `Thresholds` give them. |
| `Firmware.MemorySwitch.FinishCalibration` | avr-ppm-memory-switch-with-radar-pwm/avr-ppm-memory-switch-with-radar-pwm.c:96-101 | From five summed recordings it establishes neutral == `Neutral(recordings)` and thresholds == `Thresholds(neutral)`. |
| `Firmware.MemorySwitch.MainStep` | avr-ppm-memory-switch-with-radar-pwm/avr-ppm-memory-switch-with-radar-pwm.c:134-163 | One main iteration moves the line as `Poll`. The outputs change only for a consumed width, and then as `Latch.Step` against the calibrated thresholds. It cannot write the thresholds, neutral or recordings. |
| `Firmware.MemorySwitch.ApplyLatch` | avr-ppm-memory-switch-with-radar-pwm/avr-ppm-memory-switch-with-radar-pwm.c:148-160 | The in-place if/else chain on `was_last_on`, PORTB3 and PORTB4 computes exactly `Latch.Step`. |
| `Scenario.CalibrateThenSwitch` | avr-ppm-memory-switch-with-radar-pwm/avr-ppm-memory-switch-with-radar-pwm.c:94-160 | Recordings [0, 1480, 1500, 1520, 1500] give neutral 1500 and thresholds 1700/1300. Then [1500, 1750, 1500, 1200] toggles PB3 once and PB4 once, ending with both on and the latch engaged. |
| `Scenario.Tick` | avr-ppm-memory-switch-with-radar-pwm/avr-ppm-memory-switch-with-radar-pwm.c:136-138 | A counting iteration of whichever loop runs advances the line as `Poll` and changes nothing else. |
| `Scenario.Pulse` | avr-ppm-memory-switch-with-radar-pwm/avr-ppm-memory-switch-with-radar-pwm.c:167-176 | Driving the object through a rising edge, `ticks` polls and a falling edge leaves COMPLETE pending with width `ticks mod 2^16`. Calibration and outputs are unchanged. |
| `Scenario.SetupPulse` | avr-ppm-memory-switch-with-radar-pwm/avr-ppm-memory-switch-with-radar-pwm.c:81-106 | A pulse of `ticks` polls during calibration appends `ticks mod 2^16` to the recordings and parks the line again. After the fifth recording, the thresholds are the ones calibration computes. |
| `Scenario.SwitchPulse` | avr-ppm-memory-switch-with-radar-pwm/avr-ppm-memory-switch-with-radar-pwm.c:134-163 | A pulse of `ticks` polls after calibration changes the outputs exactly as `Latch.Step` on `ticks mod 2^16` and parks the line again. |
| `Scenario.PowerUp` | avr-ppm-memory-switch-with-radar-pwm/avr-ppm-memory-switch-with-radar-pwm.c:71-132 | From power-up, the spurious zero and pulses of 1480, 1500, 1520 and 1500 ticks hand over to main with thresholds 1700/1300 and both outputs low. |
| `Scenario.PowerUpAndSwitch` | avr-ppm-memory-switch-with-radar-pwm/avr-ppm-memory-switch-with-radar-pwm.c:71-163 | Power-up, four calibration pulses (1480, 1500, 1520, 1500 ticks) and then pulses of 1500, 1750, 1500 and 1200 ticks. The object ends with thresholds 1700/1300 and PB3 and PB4 both on. |

## Left out

- Timer0 PWM for the radar motor (`init_timer0_pwm`, `set_oc0a`, `connect_oc0a`): these are writes to hardware registers, and no logic depends on them.
- The DDRB direction writes and GIMSK: register writes. PB3 and PB4 are modelled as two booleans, and MCUCR as its ISC00 bit.
- `sei()`/`cli()`: interrupts are events that the environment calls between loop iterations. `cli()` at line 97 up to `sei()` at line 132 is therefore one atomic step: `SetupStep` hands over straight to main's loop.
- Interrupt preemption inside a loop iteration and the `volatile` read-modify-write races on `pulse_status`: these are concurrency effects, not modelled.
- The non-terminating `while(1)` loops: the model has single iterations and finite sequences of them.
- The meaning of a tick in time (F_CPU, cycles per loop iteration): not modelled.
- The polled variant with averaging over ten pulses and a 50% fraction is not part of this model.

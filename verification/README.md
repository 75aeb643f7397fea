# simple-robot: verified model of the chassis actuator and the button delay

This project models two pieces of sequential logic from the simple-robot firmware, a small wheeled robot:

- **The chassis actuator** (`src/chassis.rs`). `Chassis` owns one complementary PWM channel of timer 1 and two direction outputs, one per wheel. Its hardware calls (`set_duty`, `enable`, `disable`, `set_dead_time`, `set_polarity`, `set_high`, `set_low`) become field updates on an immutable `ChassisState`. That state holds the duty ceiling `maxDuty`, the dead time, the polarity, the duty, the enable flag and the two pin levels. `New`, `Start`, `Stop`, `Forward`, `Back`, `Left` and `Right` are pure transition functions (module `Chassis`, file `chassis.dfy`). Module `ChassisTrace` (file `chassis_trace.dfy`) applies any list of these operations. It proves what holds after every such list, and it checks the operations against an independently written direction-pin table.
- **The delay adjuster `loop_delay`** (`src/main.rs`). The button is a sequence of readings, with `true` meaning pressed (the pin reads low). With that, `loop_delay` is the pure function `Delay`. `DelayLoop` is the same computation written as the Rust loop, with its early return, and it is proved equal to `Delay`. `RunDelays` models `main` feeding the result back into the next call. Its lemmas prove which counter values are reachable from the initial 10000 (module `LoopDelay`, file `loop_delay.dfy`).

Integer widths are explicit. The duty and dead-time registers are `U16`, and the delay counter is `I32`. `Adjust` computes `del - 25000` into an `I32` local under its precondition `del > 1`, so the verifier shows that `del - 25000` cannot overflow for any `del` that enters the loop. This is stronger than the guarantee for the reachable values alone.

One might expect the duty to be nonzero exactly when the channel is enabled. The code does not guarantee this, because `Chassis::new` enables the channel with duty 0 (src/chassis.rs:167-170). The model follows the code: `New` states `s.duty == 0 && s.enabled`, and `Valid` only demands that a disabled channel has duty 0. If `maxDuty < 2`, the running duty `maxDuty / 2` is also 0.

## Model

| member | source | states |
|---|---|---|
| Chassis.New | src/chassis.rs:163-170 | After construction: dead time is `max_duty / 1024`, polarity ActiveHigh, duty 0 with the channel enabled, left pin High, right pin Low, and the state satisfies the actuator invariant `Valid` |
| Chassis.RunDuty | src/chassis.rs:190-191 | The running duty `max_duty / 2` never exceeds the ceiling and is its half rounded down |
| Chassis.Start | src/chassis.rs:189-193 | `start` sets the duty to half the ceiling and enables the channel; the pins and the set-up of `new` are unchanged; it preserves `Valid` |
| Chassis.Stop | src/chassis.rs:195-198 | `stop` sets duty 0 and disables the channel; both pins, dead time and polarity are unchanged; it preserves `Valid` |
| Chassis.SetDirection | src/chassis.rs:201-202 | Writing the two direction outputs changes only the pin levels, not the PWM channel |
| Chassis.Forward | src/chassis.rs:200-204 | `forward` ends with left High, right Low, duty half the ceiling, channel enabled, set-up unchanged |
| Chassis.Back | src/chassis.rs:206-210 | `back` ends with left Low, right High, duty half the ceiling, channel enabled, set-up unchanged |
| Chassis.Left | src/chassis.rs:212-216 | `left` ends with both pins Low, duty half the ceiling, channel enabled, set-up unchanged |
| Chassis.Right | src/chassis.rs:218-222 | `right` ends with both pins High, duty half the ceiling, channel enabled, set-up unchanged |
| Chassis.StopIdempotent | src/chassis.rs:195-198 | Calling `stop` twice gives the same state as calling it once |
| Chassis.ForwardThenStopForgetsHistory | src/chassis.rs:195-204 | `forward` then `stop` gives duty 0, channel disabled, pins High/Low, and the same state from any two prior states with the same set-up |
| ChassisTrace.Run | src/chassis.rs:189-222 | Any sequence of calls keeps `max_duty`, dead time and polarity and preserves `Valid` |
| ChassisTrace.PinTable | src/chassis.rs:200-222 | The direction table gives a pin pair exactly for the four direction commands; `start` and `stop` leave the pins alone |
| ChassisTrace.DirectionOf | src/chassis.rs:200-222 | Every pair of pin levels stands for one of the four direction commands |
| ChassisTrace.PinTableBijective | src/chassis.rs:200-222 | The direction table is a bijection between the four direction commands and the four pin-level pairs |
| ChassisTrace.StepFollowsPinTable | src/chassis.rs:189-222 | Each operation drives exactly the pins the table gives, or leaves them alone, whatever the state before |
| ChassisTrace.DirectionForgetsHistory | src/chassis.rs:200-222 | A direction command's resulting state depends only on the command and the set-up, not on the prior pins, duty or enable flag |
| ChassisTrace.LastDirection | src/chassis.rs:200-222 | Returns the last direction command of a call list (one occurring in it with no direction command after it), or None exactly when the list holds none |
| ChassisTrace.RunPins | src/chassis.rs:189-222 | After any call list the pins are those of the last direction command, or the starting pins when there is none |
| ChassisTrace.RunDutyFollowsLastOp | src/chassis.rs:189-198 | After a non-empty call list the channel is enabled exactly when the last call was not `stop`; the duty is 0 after `stop` and half the ceiling otherwise |
| ChassisTrace.RunFromNew | src/chassis.rs:163-198 | Starting from `new`, every call list leaves the duty in {0, `max_duty / 2`}, at most `max_duty`, with dead time `max_duty / 1024` |
| ChassisTrace.StopsCollapse | src/chassis.rs:195-198 | Any non-empty run of `stop` calls equals a single `stop` |
| LoopDelay.FirstPress | src/main.rs:42-43 | Finds the first iteration of the scan on which the button reads pressed, with no earlier press; `None` means no press in the range |
| LoopDelay.Adjust | src/main.rs:46-50 | After a press the delay is `del - 25000` when that is at least 25000 and 100000 otherwise; it is always at least 25000, and the subtraction stays in `i32` |
| LoopDelay.Delay | src/main.rs:41-57 | `del <= 1` or no press among the first `del - 1` readings returns `del`; a press returns the adjusted delay; at most one decrement, and a changed result lies between 25000 and max(`del - 25000`, 100000) |
| LoopDelay.DelayLoop | src/main.rs:41-57 | The counted loop with early return computes the same delay as `Delay` and returns `del` when no reading is pressed |
| LoopDelay.RunDelays | src/main.rs:34-38 | `main` feeding each `loop_delay` result into the next call: a counter of at most 1 never changes, a changed counter is at least 25000, and with the button never pressed the counter stays put |
| LoopDelay.PressCycle | src/main.rs:30-50 | Successive presses from 10000 give 100000, 75000, 50000, 25000, then 100000 again |
| LoopDelay.DelayStaysReachable | src/main.rs:30-50 | One call from 10000 or a cycle value returns the same value or a cycle value |
| LoopDelay.RunDelaysReachable | src/main.rs:30-38 | `main`'s counter is always 10000 or one of 100000, 75000, 50000, 25000, so it never drops below 10000 and no subtraction overflows `i32` |
| LoopDelay.CycleIsClosed | src/main.rs:34-50 | After the first press the counter stays in the cycle {100000, 75000, 50000, 25000} |

## Left out

- The generic `WheelPinPair`, `WheelComplementaryPinPair` and `WheelDrive` structs (src/chassis.rs:16-112) are left out. They only carry pins between types and have no behaviour.
- Timer and PWM construction and the 2 kHz frequency (src/chassis.rs:141-161) are peripheral set-up, so they are left out. `max_duty` is a parameter of `New`, and `start` uses the value fixed at construction instead of reading it from the timer again.
- The commented-out second channel and rear axle (src/chassis.rs:153-154, 172-179) are not live code.
- Peripheral take/split, the LED toggle, RTT logging and the endless `main` loop (src/main.rs:17-39) are left out, and so is the `Button got pressed` log line inside `loop_delay` (src/main.rs:44). `main` is modelled only as `RunDelays`, which applies `loop_delay` over a finite list of button-reading sequences.
- The busy-wait timing, meaning how long the loop takes, is left out: nothing here gives time a meaning.
- The button is a parameter, a finite sequence of readings. Readings past its end count as released.
- The command decoder, broadcast bus, autopilot and sonar ranger are not part of this model. Their code is not among the modelled files.

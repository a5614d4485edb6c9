# Blind-stick firmware model

A Dafny model of the control firmware of an assistive walking cane built on an
STM32F4 board (`blind_stick.c`). The firmware runs three modules one after the
other in an endless loop, all on GPIO port A:

- a light sensor (an LDR on the ADC) that blinks an indicator LED on PA3 when it is dark;
- an ultrasonic range finder that sends a 10 us trigger pulse on PA6, times the echo
  pulse on PA1 and sounds a 2000 Hz obstacle tone on the shared buzzer on PA5;
- an emergency button on PA0 (active LOW) that lights the emergency LED on PA2 and
  sounds a 2800 Hz tone.

Every delay is a busy loop of `__NOP()` instructions.

The model has two layers:

- **Specification modules** (pure functions and lemmas):
  - `Registers`: the ODR word as a `bv32` and the two read-modify-write operations
    `|= (1 << k)` and `&= ~(1 << k)`.
  - `Events`: a trace of pin writes and `delay_us` calls, with its effect on ODR
    (`Replay`) and its write counts (`CountDrives`).
  - `Timing`: the busy-wait delays and their cost (`Cost`) in NOP iterations.
  - `Buzzer`, `Ultrasonic` and `ControlLoop`: what each procedure and each module of
    the loop body does, as a trace, and lemmas about that trace.
- **The imperative layer** (`Firmware.Board`, a class): the source's functions
  as methods with loops. Each method updates:
  - `odr`, the GPIOA output register;
  - `nops`, the busy-loop iterations executed so far;
  - `adcData`, the global light sample;
  - a ghost `trace`.

  Every method is proved against the specification functions. Its `ensures` gives
  the new register, iteration count and trace in terms of them, and the lemmas
  beside those functions state what the firmware promises.

Inputs the firmware polls are parameters:

- `echo: nat -> bool` is the level of PA1 in successive reads of IDR during one measurement.
- `adcReady: nat -> bool` is the conversion-complete flag in successive reads of the ADC status register.
- `dr` is the ADC data register.
- `idr` is the IDR word read by the button check.

Two behaviours of the code that the model follows exactly:

- The obstacle tone sounds for every distance except 3 cm and 4 cm. The comment at
  blind_stick.c:173 speaks of a 2 cm to 20 cm range; the condition at line 174 is
  `!(distance < 5 && distance > 2)`.
- The measurement counter can end at 30001, although the timeout literal is 30000
  (blind_stick.c:82-84): it is incremented before the test `time > 30000` breaks
  the loop. A timed-out measurement therefore reports 30001 / 58 = 517 cm.

## Model

| member | source | states |
|---|---|---|
| Registers.SetBit | blind_stick.c:47 | `ODR \|= (1 << k)` drives pin k HIGH and leaves every other bit of the word as it was |
| Registers.ClearBit | blind_stick.c:49 | `ODR &= ~(1 << k)` drives pin k LOW and leaves every other bit of the word as it was |
| Registers.ClearAfterSet | blind_stick.c:47-49 | a HIGH write followed by a LOW write of the same pin leaves the word as the LOW write alone would |
| Firmware.Board.SetPin | blind_stick.c:47 | the register becomes SetBit of the old one and the write is appended to the trace |
| Firmware.Board.ResetPin | blind_stick.c:49 | the register becomes ClearBit of the old one and the write is appended to the trace |
| Timing.Cost | blind_stick.c:17-22 | the busy-loop iterations a trace spends: DelayIterations(us) per `delay_us(us)` call, nothing per pin write |
| Timing.MsDelay | blind_stick.c:28-32 | `delay_ms(ms)` as ms calls of `delay_us(1000)` |
| Buzzer.Wave | blind_stick.c:47-50 | one iteration of the tone loop: PA5 HIGH, `delay_us(half)`, PA5 LOW, `delay_us(half)` |
| Buzzer.ToneTrace | blind_stick.c:40-52 | `Buzzer_Beep`: nothing for frequency 0, otherwise Cycles waves of HalfPeriod halves |
| Ultrasonic.TriggerTrace | blind_stick.c:62-66 | `Ultrasonic_Send_Trigger`: PA6 HIGH, `delay_us(10)`, PA6 LOW |
| Ultrasonic.PulseTime | blind_stick.c:81-85 | the counter of the measurement loop: the length of the run of HIGH reads from a given read, capped at 30001 |
| Ultrasonic.EchoTime | blind_stick.c:77-85 | the counter `Ultrasonic_Get_Distance` divides by 58: PulseTime from the read after the first HIGH read |
| Ultrasonic.RangingTrace | blind_stick.c:72-90 | `Ultrasonic_Get_Distance` after the echo rose: the trigger pulse, then one `delay_us(1)` per counted microsecond |
| ControlLoop.LightTrace | blind_stick.c:157-166 | module 1: PA3 HIGH, `delay_ms(100)`, PA3 LOW, `delay_ms(100)` when the sample is above 100, otherwise one LOW write of PA3 |
| ControlLoop.ObstacleTrace | blind_stick.c:174-178 | module 2 after ranging: `Buzzer_Beep(2000, 200)` and `delay_ms(100)` when the alarm condition holds, otherwise nothing |
| ControlLoop.ButtonTrace | blind_stick.c:184-193 | module 3: PA2 HIGH, `Buzzer_Beep(2800, 100)`, `delay_ms(100)` when PA0 reads LOW, otherwise one LOW write of PA2 |
| ControlLoop.IterationTrace | blind_stick.c:157-196 | one pass of the loop body after the ADC read: light module, ranging, obstacle module, button module, `delay_ms(10)` |
| ControlLoop.ObstacleOutputs | blind_stick.c:174-178 | ODR after module 2: PA5 cleared after a tone, unchanged otherwise |
| ControlLoop.ButtonOutputs | blind_stick.c:184-193 | ODR after module 3: PA2 cleared when released; PA2 set and PA5 cleared when pressed |
| ControlLoop.OutputsAfter | blind_stick.c:157-193 | ODR after one pass: PA3 cleared, PA6 cleared, then ObstacleOutputs, then ButtonOutputs |
| Timing.DelayIterations | blind_stick.c:17-22 | `delay_us(us)` runs 8 * us iterations while that fits in 32 bits, and fewer once the uint32_t product wraps |
| Firmware.Board.DelayUs | blind_stick.c:17-22 | the counting loop executes exactly DelayIterations(us) NOPs and writes no pin |
| Timing.MsDelayEffect | blind_stick.c:28-32 | `delay_ms(ms)` costs exactly 8000 * ms iterations, writes no pin and leaves ODR unchanged |
| Firmware.Board.DelayMs | blind_stick.c:28-32 | the loop of `ms` calls of `delay_us(1000)` adds 8000 * ms iterations and ms delay events |
| Timing.CostRepeat | blind_stick.c:29-31 | a loop repeating a body n times costs n times the body |
| Events.CountRepeat | blind_stick.c:46-51 | a loop repeating a body n times drives each pin to each level n times as often as the body |
| Buzzer.HalfPeriod | blind_stick.c:42-43 | the two truncating divisions give 500000 / frequency, which is 0 exactly when frequency > 500000 |
| Buzzer.Cycles | blind_stick.c:44 | the wave count is (f * d) / 1000 while the product fits in 32 bits and never more than that once it wraps |
| Buzzer.WaveEffect | blind_stick.c:47-50 | one wave drives PA5 HIGH once and LOW once, touches no other pin, leaves PA5 LOW and costs two half-period delays |
| Buzzer.ReplayWaves | blind_stick.c:46-51 | n waves leave PA5 LOW if n > 0, and ODR unchanged if n = 0 |
| Buzzer.ToneEffect | blind_stick.c:40-52 | frequency 0 does nothing; otherwise exactly Cycles HIGH and Cycles LOW writes of PA5, no write of any other pin, Cycles * 2 half-period delays, and PA5 LOW at the end if any wave played |
| Buzzer.ToneOrder | blind_stick.c:46-51 | wave i is, in order, PA5 HIGH, `delay_us(half)`, PA5 LOW, `delay_us(half)` |
| Firmware.Board.BuzzerWave | blind_stick.c:47-50 | one loop body: ODR ends with PA5 LOW, cost 2 * DelayIterations(half), the trace of one wave |
| Firmware.Board.BuzzerBeep | blind_stick.c:40-52 | the method's trace is ToneTrace, its ODR is PA5 cleared iff a wave played, and it costs Cycles * 2 * DelayIterations(HalfPeriod) |
| Ultrasonic.TriggerEffect | blind_stick.c:62-66 | the trigger pulse drives PA6 HIGH once and LOW once, no other pin, leaves PA6 LOW and costs 80 iterations |
| Firmware.Board.UltrasonicSendTrigger | blind_stick.c:62-66 | PA6 HIGH, `delay_us(10)`, PA6 LOW: ODR with PA6 cleared, 80 iterations, the trigger trace |
| Ultrasonic.FirstRise | blind_stick.c:78 | an echo that is ever read HIGH has a first HIGH read, where the wait ends |
| Ultrasonic.RiseUnique | blind_stick.c:78 | the read that ends the wait is unique |
| Ultrasonic.PulseRun | blind_stick.c:81-85 | every read the measurement loop consumes is HIGH, and the read that ends it before the timeout is LOW |
| Ultrasonic.PulseTimeUnique | blind_stick.c:81-85 | a run of t HIGH reads ended by a LOW read, or by passing the timeout, fixes the counter at t |
| Ultrasonic.PulseTimeout | blind_stick.c:84 | the counter reaches 30001 exactly when the echo stays HIGH for 30001 reads in a row |
| Ultrasonic.MeasuredEcho | blind_stick.c:77-85 | where the two loops stop determines the echo time |
| Ultrasonic.DistanceCm | blind_stick.c:89 | the distance d satisfies 58d <= time < 58(d + 1) |
| Ultrasonic.DistanceBound | blind_stick.c:84-89 | a measurement never exceeds 517 cm, and a timed-out one reports 517 cm, an ordinary value and not an error |
| Ultrasonic.RangingEffect | blind_stick.c:72-90 | a measurement writes only PA6 (once HIGH, once LOW), leaves it LOW and costs 80 + 8 * time iterations |
| Firmware.Board.WaitForEcho | blind_stick.c:78 | the polling loop returns the first read at which PA1 is HIGH |
| Firmware.Board.MeasureEcho | blind_stick.c:81-85 | the counter stays at or below 30001, every read it counts is HIGH, the read that stops it before the timeout is LOW, and each count costs one `delay_us(1)` |
| Firmware.Board.UltrasonicGetDistance | blind_stick.c:72-90 | returns DistanceCm(EchoTime(echo)), at most 517; ODR has PA6 cleared; cost 80 + 8 * EchoTime; trace is RangingTrace |
| ControlLoop.AdcSample | blind_stick.c:154 | the register value stored in the signed `int adcData`: in [-2^31, 2^31) and equal to DR modulo 2^32 |
| ControlLoop.LightRule | blind_stick.c:154-166 | the light LED blinks iff 100 < DR < 2^31, which for a 12-bit conversion is iff DR > 100 |
| ControlLoop.ObstacleAlarm | blind_stick.c:174 | the obstacle tone sounds iff the distance is neither 3 nor 4 cm |
| ControlLoop.LightEffect | blind_stick.c:157-166 | module 1 leaves PA3 LOW and touches no other pin; it drives PA3 HIGH once, for a 1,600,000-iteration blink, iff the sample is above 100 |
| ControlLoop.ObstacleEffect | blind_stick.c:174-178 | module 2 after ranging: 400 waves of 250 us halves plus a 100 ms pause (2,400,000 iterations) iff the alarm condition holds, and nothing otherwise; it writes only PA5 |
| ControlLoop.ButtonEffect | blind_stick.c:184-193 | pressed (LOW): PA2 HIGH, 280 waves of 178 us halves and a 100 ms pause; released (HIGH): one LOW write of PA2 and nothing else |
| ControlLoop.IterationWord | blind_stick.c:157-196 | ODR after an iteration is the composition of what each module leaves behind |
| ControlLoop.IterationOutputs | blind_stick.c:157-196 | after an iteration PA3 and PA6 are LOW, PA2 is HIGH iff the button read LOW (no latching), PA5 is LOW after any tone and otherwise unchanged, and other ODR bits are untouched |
| ControlLoop.IterationKeeps | blind_stick.c:157-196 | pins other than PA2, PA3, PA5 and PA6 keep their output level across an iteration |
| ControlLoop.IterationDrives | blind_stick.c:157-196 | write counts per iteration at both levels: PA3 HIGH once iff dark and LOW once; PA6 HIGH and LOW once; PA2 HIGH once iff pressed and LOW once iff released; PA5 HIGH and LOW 400 times iff the alarm holds plus 280 iff pressed |
| ControlLoop.IterationWritesOnlyOutputs | blind_stick.c:157-196 | an iteration writes no pin other than PA2, PA3, PA5 and PA6 at either level, so the inputs PA0 and PA1 are never driven |
| ControlLoop.IterationCost | blind_stick.c:157-196 | an iteration's busy-wait cost is the sum of the blink, ranging, obstacle tone, emergency tone and settling delays |
| ControlLoop.SilentWindow | blind_stick.c:171-178 | with the button released, an iteration is silent iff the echo counter is in 174..289, and otherwise sounds 400 waves |
| Firmware.Board.ReadAdc | blind_stick.c:153-154 | after the ready wait, `adcData` holds the sample of DR |
| Firmware.Board.LightModule | blind_stick.c:157-166 | ODR with PA3 cleared, 1,600,000 iterations iff adcData > 100, the light trace |
| Firmware.Board.ObstacleModule | blind_stick.c:174-178 | ODR with PA5 cleared iff the alarm holds, 2,400,000 iterations iff it holds, the obstacle trace |
| Firmware.Board.ButtonModule | blind_stick.c:184-193 | ODR per ButtonOutputs of the button level, 1,597,440 iterations iff pressed, the button trace |
| Firmware.Board.SenseAndWarn | blind_stick.c:157-178 | modules 1 and 2 in order: distance, ODR, cost and trace composed from the module effects |
| Firmware.Board.ButtonAndSettle | blind_stick.c:184-196 | module 3 then `delay_ms(10)`: ODR, cost and trace composed from the module effect and 80,000 iterations |
| Firmware.Board.RunIteration | blind_stick.c:153-196 | one pass of the loop body: adcData, distance, ODR (OutputsAfter), the total iteration count and the trace IterationTrace |

## Left out

- `System_Init` (clock enables, pin modes, pull-up, ADC configuration) and the start of conversion in `main`: register configuration with no behaviour the loop depends on beyond the pin assignment, which the model takes as given.
- The register map and `__NOP()`: ODR is a `bv32` field; a NOP is one increment of `nops`.
- Real time: costs are counted in NOP iterations. How long one takes depends on the core clock and the compiler, which the model does not know.
- The endless `while(1)`: `RunIteration` models one pass of its body, and the lemmas about `IterationTrace` describe any pass.
- Firmware.Board.UltrasonicGetDistance: requires the echo to be read HIGH eventually, because the wait for the rising edge has no timeout and the code spins forever otherwise.
- Firmware.Board.WaitForEcho: requires the echo to be read HIGH eventually, for the same reason.
- Firmware.Board.ReadAdc: requires the conversion-complete flag to be read set eventually, because that wait has no timeout either.
- Firmware.Board.SenseAndWarn: requires the echo to be read HIGH eventually, because it runs the measurement whose wait has no timeout.
- Firmware.Board.RunIteration: requires the ADC ready flag and the echo to rise eventually, for the same two reasons.
- The ADC data register is a parameter `dr`. The 12-bit range of a conversion appears only in `LightRule`, because the register itself is 32 bits wide.
- IDR is not register state of the model. The echo reads of PA1 during one measurement are the stream `echo`, and the single read of PA0 by the button check is the word `idr`; PA0 and PA1 are inputs the firmware never writes.

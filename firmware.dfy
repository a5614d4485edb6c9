/** The firmware's procedures as methods on the board state they change: the GPIOA
    output register, the number of busy-loop iterations executed so far, and the
    global `adcData`. The ghost `trace` records every pin write and every
    `delay_us` call, so each method's effect on the register and on the
    iteration counter can be stated through the trace functions of the other
    modules and the lemmas proved about them. */
module Firmware {
  import opened Registers
  import opened Events
  import opened Timing
  import opened Buzzer
  import opened Ultrasonic
  import opened ControlLoop

  class Board {
    /** `GPIOA->ODR`. */
    var odr: bv32
    /** `__NOP()` iterations executed by the busy loops so far. */
    var nops: nat
    /** The global `adcData`: the most recent light sample. */
    var adcData: int
    /** Every pin write and every `delay_us` call so far, in order. */
    ghost var trace: seq<Event>

    constructor()
      ensures odr == RESET_VALUE && nops == 0 && adcData == 0 && trace == []
    {
      odr, nops, adcData, trace := RESET_VALUE, 0, 0, [];
    }

    /** `GPIOA->ODR |= (1 << k)`. */
    method SetPin(k: Pin)
      modifies this`odr, this`trace
      ensures odr == SetBit(old(odr), k)
      ensures trace == old(trace) + [Drive(k, true)]
    {
      odr := odr | Mask(k);
      trace := trace + [Drive(k, true)];
    }

    /** `GPIOA->ODR &= ~(1 << k)`. */
    method ResetPin(k: Pin)
      modifies this`odr, this`trace
      ensures odr == ClearBit(old(odr), k)
      ensures trace == old(trace) + [Drive(k, false)]
    {
      odr := odr & !Mask(k);
      trace := trace + [Drive(k, false)];
    }

    /** `delay_us(us)`: one `__NOP()` per iteration up to the wrapped bound `us * 8`. */
    method DelayUs(us: U32)
      modifies this`nops, this`trace
      ensures nops == old(nops) + DelayIterations(us)
      ensures trace == old(trace) + [Spin(us)]
    {
      var bound: U32 := (us * LOOPS_PER_US) % WORD;
      var i: U32 := 0;
      while i < bound
        invariant i <= bound
        invariant nops == old(nops) + i && trace == old(trace)
      {
        nops := nops + 1;
        i := i + 1;
      }
      trace := trace + [Spin(us)];
    }

    /** `delay_ms(ms)`: `ms` calls of `delay_us(1000)`, 8000 iterations each. */
    method DelayMs(ms: U32)
      modifies this`nops, this`trace
      ensures nops == old(nops) + 8000 * ms
      ensures trace == old(trace) + MsDelay(ms)
    {
      var i: U32 := 0;
      while i < ms
        invariant i <= ms
        invariant nops == old(nops) + 8000 * i
        invariant trace == old(trace) + Repeat(i, [Spin(1000)])
      {
        DelayUs(1000);
        AppendAssoc(old(trace), Repeat(i, [Spin(1000)]), [Spin(1000)]);
        i := i + 1;
      }
    }

    /** One iteration of the tone loop: PA5 HIGH, `delay_us(halfPeriodUs)`, PA5 LOW,
        `delay_us(halfPeriodUs)`. */
    method BuzzerWave(halfPeriodUs: U32)
      modifies this`odr, this`nops, this`trace
      ensures odr == ClearBit(old(odr), BUZZER)
      ensures nops == old(nops) + 2 * DelayIterations(halfPeriodUs)
      ensures trace == old(trace) + Wave(halfPeriodUs)
    {
      ghost var on, spin, off := [Drive(BUZZER, true)], [Spin(halfPeriodUs)], [Drive(BUZZER, false)];
      SetPin(BUZZER);
      DelayUs(halfPeriodUs);
      AppendAssoc(old(trace), on, spin);
      ResetPin(BUZZER);
      AppendAssoc(old(trace), on + spin, off);
      DelayUs(halfPeriodUs);
      AppendAssoc(old(trace), on + spin + off, spin);
      ClearAfterSet(old(odr), BUZZER);
    }

    /** `Buzzer_Beep(frequency, duration_ms)`: nothing for frequency 0; otherwise
        `cycles` waves on PA5, each HIGH for half a period and LOW for half a period,
        leaving PA5 LOW if there was at least one. */
    method BuzzerBeep(frequency: U32, durationMs: U32)
      modifies this`odr, this`nops, this`trace
      ensures trace == old(trace) + ToneTrace(frequency, durationMs)
      ensures odr == if frequency > 0 && Cycles(frequency, durationMs) > 0 then ClearBit(old(odr), BUZZER) else old(odr)
      ensures nops == old(nops) +
        if frequency == 0 then 0 else Cycles(frequency, durationMs) * (2 * DelayIterations(HalfPeriod(frequency)))
    {
      if frequency == 0 {
        assert trace == old(trace) + ToneTrace(frequency, durationMs);
        return;
      }
      var periodUs: U32 := 1000000 / frequency;
      var halfPeriodUs: U32 := periodUs / 2;
      var cycles: U32 := ((frequency * durationMs) % WORD) / 1000;
      assert halfPeriodUs == HalfPeriod(frequency) && cycles == Cycles(frequency, durationMs);
      var i: U32 := 0;
      while i < cycles
        invariant i <= cycles
        invariant odr == if i > 0 then ClearBit(old(odr), BUZZER) else old(odr)
        invariant nops == old(nops) + i * (2 * DelayIterations(halfPeriodUs))
        invariant trace == old(trace) + Repeat(i, Wave(halfPeriodUs))
      {
        ClearAfterSet(old(odr), BUZZER);
        BuzzerWave(halfPeriodUs);
        AppendAssoc(old(trace), Repeat(i, Wave(halfPeriodUs)), Wave(halfPeriodUs));
        i := i + 1;
      }
    }

    /** `Ultrasonic_Send_Trigger`: a 10 us pulse on PA6. */
    method UltrasonicSendTrigger()
      modifies this`odr, this`nops, this`trace
      ensures odr == ClearBit(old(odr), TRIGGER)
      ensures nops == old(nops) + 80
      ensures trace == old(trace) + TriggerTrace()
    {
      ghost var on, spin, off := [Drive(TRIGGER, true)], [Spin(10)], [Drive(TRIGGER, false)];
      SetPin(TRIGGER);
      DelayUs(10);
      AppendAssoc(old(trace), on, spin);
      ResetPin(TRIGGER);
      AppendAssoc(old(trace), on + spin, off);
      ClearAfterSet(old(odr), TRIGGER);
    }

    /** `Ultrasonic_Get_Distance`: the trigger pulse, a wait for the echo to rise,
        then one `delay_us(1)` per HIGH read until a LOW read or until the counter
        passes 30000. `echo(n)` is bit `ECHO` (PA1) of the `n`-th read of IDR during this call;
        the wait for the rise has no timeout, so the echo must rise eventually. */
    method UltrasonicGetDistance(echo: nat -> bool) returns (distance: U32)
      requires exists n: nat :: echo(n)
      modifies this`odr, this`nops, this`trace
      ensures distance == DistanceCm(EchoTime(echo)) && distance <= 517
      ensures odr == ClearBit(old(odr), TRIGGER)
      ensures nops == old(nops) + 80 + 8 * EchoTime(echo)
      ensures trace == old(trace) + RangingTrace(EchoTime(echo))
    {
      UltrasonicSendTrigger();
      var rise := WaitForEcho(echo);
      var time := MeasureEcho(echo, rise);
      AppendAssoc(old(trace), TriggerTrace(), Repeat(time, [Spin(1)]));
      MeasuredEcho(echo, rise, time);
      distance := time / US_PER_CM;
      assert distance <= 517;
      assert distance == DistanceCm(time);
    }

    /** `while (!(GPIOA->IDR & (1 << 1)));`: polls PA1 until it reads HIGH and
        returns the index of that read. */
    method WaitForEcho(echo: nat -> bool) returns (rise: nat)
      requires exists n: nat :: echo(n)
      ensures RisesAt(echo, rise)
    {
      ghost var high: nat :| echo(high);
      rise := 0;
      while !echo(rise)
        invariant rise <= high
        invariant forall m: nat :: m < rise ==> !echo(m)
        decreases high - rise
      {
        rise := rise + 1;
      }
    }

    /** The measurement loop: one `delay_us(1)` and one increment per HIGH read
        from read `rise + 1` on, stopping at a LOW read or once the counter passes
        the timeout. */
    method MeasureEcho(echo: nat -> bool, rise: nat) returns (time: U32)
      modifies this`nops, this`trace
      ensures time <= TIMEOUT + 1
      ensures forall k: nat :: rise + 1 <= k < rise + 1 + time ==> echo(k)
      ensures time <= TIMEOUT ==> !echo(rise + 1 + time)
      ensures nops == old(nops) + 8 * time
      ensures trace == old(trace) + Repeat(time, [Spin(1)])
    {
      time := 0;
      var n := rise + 1;
      while echo(n)
        invariant time <= TIMEOUT && n == rise + 1 + time
        invariant forall k: nat :: rise + 1 <= k < n ==> echo(k)
        invariant nops == old(nops) + 8 * time
        invariant trace == old(trace) + Repeat(time, [Spin(1)])
        decreases TIMEOUT + 1 - time
      {
        time := time + 1;
        DelayUs(1);
        AppendAssoc(old(trace), Repeat(time - 1, [Spin(1)]), [Spin(1)]);
        if time > TIMEOUT {
          break;
        }
        n := n + 1;
      }
    }

    /** Module 1 (the light sensor), given the sample just stored in `adcData`:
        one blink of PA3 when it is dark, otherwise PA3 LOW. */
    method LightModule()
      modifies this`odr, this`nops, this`trace
      ensures odr == ClearBit(old(odr), LIGHT_LED)
      ensures nops == old(nops) + if adcData > LDR_THRESHOLD then 1600000 else 0
      ensures trace == old(trace) + LightTrace(adcData)
    {
      if adcData > LDR_THRESHOLD {
        ghost var on, off, blink := [Drive(LIGHT_LED, true)], [Drive(LIGHT_LED, false)], MsDelay(BLINK_MS);
        SetPin(LIGHT_LED);
        DelayMs(BLINK_MS);
        AppendAssoc(old(trace), on, blink);
        ResetPin(LIGHT_LED);
        AppendAssoc(old(trace), on + blink, off);
        DelayMs(BLINK_MS);
        AppendAssoc(old(trace), on + blink + off, blink);
        ClearAfterSet(old(odr), LIGHT_LED);
      } else {
        ResetPin(LIGHT_LED);
      }
    }

    /** Module 2 after the measurement: the obstacle tone and a pause unless the
        distance is 3 or 4 cm. */
    method ObstacleModule(distance: U32)
      modifies this`odr, this`nops, this`trace
      ensures odr == ObstacleOutputs(old(odr), ObstacleAlarm(distance))
      ensures nops == old(nops) + if ObstacleAlarm(distance) then 2400000 else 0
      ensures trace == old(trace) + ObstacleTrace(distance)
    {
      if !(distance < 5 && distance > 2) {
        assert Cycles(OBSTACLE_HZ, OBSTACLE_MS) == 400 && HalfPeriod(OBSTACLE_HZ) == 250;
        BuzzerBeep(OBSTACLE_HZ, OBSTACLE_MS);
        DelayMs(PAUSE_MS);
        AppendAssoc(old(trace), ToneTrace(OBSTACLE_HZ, OBSTACLE_MS), MsDelay(PAUSE_MS));
      }
    }

    /** Module 3: the emergency LED and tone while PA0 reads LOW in `idr`, the LED
        LOW otherwise. */
    method ButtonModule(idr: bv32)
      modifies this`odr, this`nops, this`trace
      ensures odr == ButtonOutputs(old(odr), IsHigh(idr, BUTTON))
      ensures nops == old(nops) + if IsHigh(idr, BUTTON) then 0 else 1597440
      ensures trace == old(trace) + ButtonTrace(IsHigh(idr, BUTTON))
    {
      if !IsHigh(idr, BUTTON) {
        ghost var on, tone := [Drive(EMERGENCY_LED, true)], ToneTrace(EMERGENCY_HZ, EMERGENCY_MS);
        assert Cycles(EMERGENCY_HZ, EMERGENCY_MS) == 280 && HalfPeriod(EMERGENCY_HZ) == 178;
        SetPin(EMERGENCY_LED);
        BuzzerBeep(EMERGENCY_HZ, EMERGENCY_MS);
        AppendAssoc(old(trace), on, tone);
        DelayMs(PAUSE_MS);
        AppendAssoc(old(trace), on + tone, MsDelay(PAUSE_MS));
      } else {
        ResetPin(EMERGENCY_LED);
      }
    }

    /** The start of module 1: wait until the conversion-complete flag reads set,
        then store the data register in `adcData`. */
    method ReadAdc(adcReady: nat -> bool, dr: U32)
      requires exists n: nat :: adcReady(n)
      modifies this`adcData
      ensures adcData == AdcSample(dr)
    {
      ghost var ready: nat :| adcReady(ready);
      var polls: nat := 0;
      while !adcReady(polls)
        invariant polls <= ready
        decreases ready - polls
      {
        polls := polls + 1;
      }
      adcData := AdcSample(dr);
    }

    /** Modules 1 and 2, once the light sample is in `adcData`: the light
        indicator, the distance measurement and the obstacle tone. */
    method SenseAndWarn(echo: nat -> bool) returns (distance: U32)
      requires exists n: nat :: echo(n)
      modifies this`odr, this`nops, this`trace
      ensures distance == DistanceCm(EchoTime(echo))
      ensures odr == ObstacleOutputs(ClearBit(ClearBit(old(odr), LIGHT_LED), TRIGGER), ObstacleAlarm(distance))
      ensures nops == old(nops) + (if adcData > LDR_THRESHOLD then 1600000 else 0) + (80 + 8 * EchoTime(echo))
        + (if ObstacleAlarm(distance) then 2400000 else 0)
      ensures trace == old(trace) + LightTrace(adcData) + RangingTrace(EchoTime(echo)) + ObstacleTrace(distance)
    {
      LightModule();
      distance := UltrasonicGetDistance(echo);
      ObstacleModule(distance);
    }

    /** Module 3 and the settling delay at the end of the iteration. */
    method ButtonAndSettle(idr: bv32)
      modifies this`odr, this`nops, this`trace
      ensures odr == ButtonOutputs(old(odr), IsHigh(idr, BUTTON))
      ensures nops == old(nops) + (if IsHigh(idr, BUTTON) then 0 else 1597440) + 80000
      ensures trace == old(trace) + ButtonTrace(IsHigh(idr, BUTTON)) + MsDelay(SETTLE_MS)
    {
      ButtonModule(idr);
      DelayMs(SETTLE_MS);
    }

    /** One pass through the body of `main`'s `while(1)` loop. `adcReady(n)` is the
        conversion-complete flag in the `n`-th read of the ADC status register, `dr`
        the data register, `echo` the echo reads of the ranging and `idr` the input
        word read by the button check. Both waits have no timeout, so the flag and
        the echo must rise eventually. */
    method RunIteration(adcReady: nat -> bool, dr: U32, echo: nat -> bool, idr: bv32) returns (distance: U32)
      requires exists n: nat :: adcReady(n)
      requires exists n: nat :: echo(n)
      modifies this
      ensures adcData == AdcSample(dr)
      ensures distance == DistanceCm(EchoTime(echo))
      ensures odr == OutputsAfter(old(odr), ObstacleAlarm(distance), IsHigh(idr, BUTTON))
      ensures nops == old(nops) + (if adcData > LDR_THRESHOLD then 1600000 else 0) + (80 + 8 * EchoTime(echo))
        + (if ObstacleAlarm(distance) then 2400000 else 0) + (if IsHigh(idr, BUTTON) then 0 else 1597440) + 80000
      ensures trace == old(trace) + IterationTrace(adcData, EchoTime(echo), IsHigh(idr, BUTTON))
    {
      ReadAdc(adcReady, dr);
      distance := SenseAndWarn(echo);
      ButtonAndSettle(idr);
      AppendAssoc5(old(trace), LightTrace(adcData), RangingTrace(EchoTime(echo)), ObstacleTrace(distance),
        ButtonTrace(IsHigh(idr, BUTTON)), MsDelay(SETTLE_MS));
    }
  }
}

/** One iteration of the `while(1)` loop in `main`: the light module, the obstacle
    module, the emergency button module and the settling delay, in that order. */
module ControlLoop {
  import opened Registers
  import opened Events
  import opened Timing
  import opened Buzzer
  import opened Ultrasonic

  /** ADC readings above this mean darkness. */
  const LDR_THRESHOLD: int := 100

  const BLINK_MS: U32 := 100       // light indicator HIGH time and LOW time
  const OBSTACLE_HZ: U32 := 2000
  const OBSTACLE_MS: U32 := 200
  const EMERGENCY_HZ: U32 := 2800
  const EMERGENCY_MS: U32 := 100
  const PAUSE_MS: U32 := 100       // pause after either tone
  const SETTLE_MS: U32 := 10       // end-of-iteration delay

  /** `adcData = ADC1->DR`: the unsigned register value stored in a signed `int`,
      which reads values from 2^31 upwards as negative. */
  function AdcSample(dr: U32): (sample: int)
    ensures -WORD / 2 <= sample < WORD / 2
    ensures sample % WORD == dr
  {
    if dr < WORD / 2 then dr else dr - WORD
  }

  /** The light indicator blinks exactly for register values from 101 up to 2^31 - 1;
      a 12-bit conversion result blinks exactly when it is above 100. */
  lemma LightRule(dr: U32)
    ensures CountDrives(LightTrace(AdcSample(dr)), LIGHT_LED, true) == 1 <==> LDR_THRESHOLD < dr < WORD / 2
    ensures dr < 4096 ==> (CountDrives(LightTrace(AdcSample(dr)), LIGHT_LED, true) == 1 <==> dr > LDR_THRESHOLD)
  {
    LightEffect(RESET_VALUE, AdcSample(dr));
  }

  /** `!(distance < 5 && distance > 2)`: the obstacle tone sounds for every
      distance except 3 cm and 4 cm. */
  function ObstacleAlarm(distance: U32): (alarm: bool)
    ensures alarm <==> distance != 3 && distance != 4
  {
    !(distance < 5 && distance > 2)
  }

  /** Module 1: blink PA3 once when it is dark, otherwise drive it LOW. */
  function LightTrace(sample: int): seq<Event>
  {
    if sample > LDR_THRESHOLD then
      [Drive(LIGHT_LED, true)] + MsDelay(BLINK_MS) + [Drive(LIGHT_LED, false)] + MsDelay(BLINK_MS)
    else
      [Drive(LIGHT_LED, false)]
  }

  /** Module 2 after the measurement: the obstacle tone and its pause, or nothing. */
  function ObstacleTrace(distance: U32): seq<Event>
  {
    if ObstacleAlarm(distance) then ToneTrace(OBSTACLE_HZ, OBSTACLE_MS) + MsDelay(PAUSE_MS) else []
  }

  /** Module 3: the button reads LOW when pressed. */
  function ButtonTrace(buttonHigh: bool): seq<Event>
  {
    if !buttonHigh then
      [Drive(EMERGENCY_LED, true)] + ToneTrace(EMERGENCY_HZ, EMERGENCY_MS) + MsDelay(PAUSE_MS)
    else
      [Drive(EMERGENCY_LED, false)]
  }

  /** Everything one iteration does once the ADC sample is read and the echo has
      risen: `time` is the counter of the echo measurement. */
  function IterationTrace(sample: int, time: U32, buttonHigh: bool): seq<Event>
  {
    LightTrace(sample) + RangingTrace(time) + ObstacleTrace(DistanceCm(time))
      + ButtonTrace(buttonHigh) + MsDelay(SETTLE_MS)
  }

  lemma DriveEffect(w: bv32, k: Pin, high: bool)
    ensures Replay(w, [Drive(k, high)]) == if high then SetBit(w, k) else ClearBit(w, k)
    ensures Cost([Drive(k, high)]) == 0
    ensures forall j: Pin, h: bool :: CountDrives([Drive(k, high)], j, h) == if j == k && h == high then 1 else 0
  {
    assert [Drive(k, high)][..0] == [];
  }

  /** The light module leaves PA3 LOW and touches no other pin; it drives PA3 HIGH
      once, for a 100 ms blink followed by 100 ms LOW, exactly when the sample is
      above the threshold, and takes no time otherwise. */
  lemma LightEffect(w: bv32, sample: int)
    ensures Replay(w, LightTrace(sample)) == ClearBit(w, LIGHT_LED)
    ensures CountDrives(LightTrace(sample), LIGHT_LED, true) == if sample > LDR_THRESHOLD then 1 else 0
    ensures CountDrives(LightTrace(sample), LIGHT_LED, false) == 1
    ensures forall k: Pin, high: bool :: k != LIGHT_LED ==> CountDrives(LightTrace(sample), k, high) == 0
    ensures Cost(LightTrace(sample)) == if sample > LDR_THRESHOLD then 1600000 else 0
  {
    var on, off := [Drive(LIGHT_LED, true)], [Drive(LIGHT_LED, false)];
    DriveEffect(w, LIGHT_LED, false);
    if sample > LDR_THRESHOLD {
      var a := on + MsDelay(BLINK_MS);
      var b := a + off;
      var w1 := SetBit(w, LIGHT_LED);
      DriveEffect(w, LIGHT_LED, true);
      DriveEffect(w1, LIGHT_LED, false);
      MsDelayEffect(w1, BLINK_MS);
      MsDelayEffect(ClearBit(w1, LIGHT_LED), BLINK_MS);
      ReplayAppend(w, on, MsDelay(BLINK_MS));
      ReplayAppend(w, a, off);
      ReplayAppend(w, b, MsDelay(BLINK_MS));
      ClearAfterSet(w, LIGHT_LED);
      CostAppend(on, MsDelay(BLINK_MS));
      CostAppend(a, off);
      CostAppend(b, MsDelay(BLINK_MS));
      forall k: Pin, high: bool
        ensures CountDrives(LightTrace(sample), k, high) == CountDrives(on, k, high) + CountDrives(off, k, high)
      {
        CountAppend(on, MsDelay(BLINK_MS), k, high);
        CountAppend(a, off, k, high);
        CountAppend(b, MsDelay(BLINK_MS), k, high);
      }
    }
  }

  /** The obstacle tone is 400 waves of 250 us halves, about 200 ms, then a 100 ms
      pause; it touches only the buzzer and leaves it LOW. */
  lemma ObstacleEffect(w: bv32, distance: U32)
    ensures Replay(w, ObstacleTrace(distance)) == ObstacleOutputs(w, ObstacleAlarm(distance))
    ensures CountDrives(ObstacleTrace(distance), BUZZER, true) == if ObstacleAlarm(distance) then 400 else 0
    ensures CountDrives(ObstacleTrace(distance), BUZZER, false) == if ObstacleAlarm(distance) then 400 else 0
    ensures forall k: Pin, high: bool :: k != BUZZER ==> CountDrives(ObstacleTrace(distance), k, high) == 0
    ensures Cost(ObstacleTrace(distance)) == if ObstacleAlarm(distance) then 2400000 else 0
  {
    if ObstacleAlarm(distance) {
      var tone := ToneTrace(OBSTACLE_HZ, OBSTACLE_MS);
      assert Cycles(OBSTACLE_HZ, OBSTACLE_MS) == 400 && HalfPeriod(OBSTACLE_HZ) == 250;
      ToneEffect(w, OBSTACLE_HZ, OBSTACLE_MS);
      MsDelayEffect(ClearBit(w, BUZZER), PAUSE_MS);
      ReplayAppend(w, tone, MsDelay(PAUSE_MS));
      CostAppend(tone, MsDelay(PAUSE_MS));
      forall k: Pin, high: bool
        ensures CountDrives(ObstacleTrace(distance), k, high) == CountDrives(tone, k, high)
      {
        CountAppend(tone, MsDelay(PAUSE_MS), k, high);
      }
    }
  }

  /** A pressed button drives PA2 HIGH and plays 280 waves of 178 us halves, about
      100 ms, then pauses 100 ms; a released one drives PA2 LOW and nothing else. */
  lemma ButtonEffect(w: bv32, buttonHigh: bool)
    ensures Replay(w, ButtonTrace(buttonHigh)) == ButtonOutputs(w, buttonHigh)
    ensures CountDrives(ButtonTrace(buttonHigh), EMERGENCY_LED, true) == if buttonHigh then 0 else 1
    ensures CountDrives(ButtonTrace(buttonHigh), EMERGENCY_LED, false) == if buttonHigh then 1 else 0
    ensures CountDrives(ButtonTrace(buttonHigh), BUZZER, true) == if buttonHigh then 0 else 280
    ensures CountDrives(ButtonTrace(buttonHigh), BUZZER, false) == if buttonHigh then 0 else 280
    ensures forall k: Pin, high: bool :: k != EMERGENCY_LED && k != BUZZER ==> CountDrives(ButtonTrace(buttonHigh), k, high) == 0
    ensures Cost(ButtonTrace(buttonHigh)) == if buttonHigh then 0 else 1597440
  {
    if buttonHigh {
      DriveEffect(w, EMERGENCY_LED, false);
    } else {
      var on := [Drive(EMERGENCY_LED, true)];
      var tone := ToneTrace(EMERGENCY_HZ, EMERGENCY_MS);
      var a := on + tone;
      var w1 := SetBit(w, EMERGENCY_LED);
      assert Cycles(EMERGENCY_HZ, EMERGENCY_MS) == 280 && HalfPeriod(EMERGENCY_HZ) == 178;
      DriveEffect(w, EMERGENCY_LED, true);
      ToneEffect(w1, EMERGENCY_HZ, EMERGENCY_MS);
      MsDelayEffect(ClearBit(w1, BUZZER), PAUSE_MS);
      ReplayAppend(w, on, tone);
      ReplayAppend(w, a, MsDelay(PAUSE_MS));
      CostAppend(on, tone);
      CostAppend(a, MsDelay(PAUSE_MS));
      forall k: Pin, high: bool
        ensures CountDrives(ButtonTrace(buttonHigh), k, high) == CountDrives(on, k, high) + CountDrives(tone, k, high)
      {
        CountAppend(on, tone, k, high);
        CountAppend(a, MsDelay(PAUSE_MS), k, high);
      }
    }
  }

  /** ODR after one iteration that started from `w`, as a composition of the
      writes each module leaves behind. */
  function OutputsAfter(w: bv32, alarm: bool, buttonHigh: bool): bv32
  {
    ButtonOutputs(ObstacleOutputs(ClearBit(ClearBit(w, LIGHT_LED), TRIGGER), alarm), buttonHigh)
  }

  /** ODR after the obstacle module: the buzzer LOW after a tone. */
  function ObstacleOutputs(w: bv32, alarm: bool): bv32
  {
    if alarm then ClearBit(w, BUZZER) else w
  }

  /** ODR after the button module. */
  function ButtonOutputs(w: bv32, buttonHigh: bool): bv32
  {
    if buttonHigh then ClearBit(w, EMERGENCY_LED) else ClearBit(SetBit(w, EMERGENCY_LED), BUZZER)
  }

  lemma IterationWord(w: bv32, sample: int, time: U32, buttonHigh: bool)
    ensures Replay(w, IterationTrace(sample, time, buttonHigh)) ==
      OutputsAfter(w, ObstacleAlarm(DistanceCm(time)), buttonHigh)
  {
    var light, ranging, obstacle := LightTrace(sample), RangingTrace(time), ObstacleTrace(DistanceCm(time));
    var button, settle := ButtonTrace(buttonHigh), MsDelay(SETTLE_MS);
    var alarm := ObstacleAlarm(DistanceCm(time));
    var w1 := ClearBit(w, LIGHT_LED);
    var w2 := ClearBit(w1, TRIGGER);
    var w3 := ObstacleOutputs(w2, alarm);
    var w4 := ButtonOutputs(w3, buttonHigh);
    assert Replay(w, light) == w1 by { LightEffect(w, sample); }
    assert Replay(w1, ranging) == w2 by { RangingEffect(w1, time); }
    assert Replay(w2, obstacle) == w3 by { ObstacleEffect(w2, DistanceCm(time)); }
    assert Replay(w3, button) == w4 by { ButtonEffect(w3, buttonHigh); }
    assert Replay(w4, settle) == w4 by { MsDelayEffect(w4, SETTLE_MS); }
    ReplayChain(w, light, ranging, obstacle, button, settle, w1, w2, w3, w4);
  }

  /** ODR bits that the loop body writes: PA2, PA3, PA5 and PA6. */
  const LOOP_OUTPUTS: bv32 := Mask(EMERGENCY_LED) | Mask(LIGHT_LED) | Mask(BUZZER) | Mask(TRIGGER)

  /** ODR bits that the loop body drives to a level that does not depend on
      the buzzer: PA2, PA3 and PA6. */
  const INDICATOR_OUTPUTS: bv32 := Mask(EMERGENCY_LED) | Mask(LIGHT_LED) | Mask(TRIGGER)

  lemma OutputsReleasedSilent(w: bv32)
    ensures OutputsAfter(w, false, true) == w & !INDICATOR_OUTPUTS
  {}

  lemma OutputsReleasedAlarm(w: bv32)
    ensures OutputsAfter(w, true, true) == w & !LOOP_OUTPUTS
  {}

  lemma OutputsPressed(w: bv32, alarm: bool)
    ensures OutputsAfter(w, alarm, false) == (w & !LOOP_OUTPUTS) | Mask(EMERGENCY_LED)
  {}

  lemma LoopOutputsAre(j: Pin)
    ensures IsHigh(LOOP_OUTPUTS, j) <==> j == EMERGENCY_LED || j == LIGHT_LED || j == BUZZER || j == TRIGGER
  {}

  /** ODR after a pass with the button released and no tone: PA2, PA3 and PA6
      LOW, PA5 and every bit outside the loop outputs as before. */
  lemma SilentBits(w: bv32)
    ensures var r := w & !INDICATOR_OUTPUTS;
      !IsHigh(r, LIGHT_LED) && !IsHigh(r, TRIGGER) && !IsHigh(r, EMERGENCY_LED) &&
      IsHigh(r, BUZZER) == IsHigh(w, BUZZER) && r & !LOOP_OUTPUTS == w & !LOOP_OUTPUTS
  {
    SilentLow(w, LIGHT_LED);
    SilentLow(w, TRIGGER);
    SilentLow(w, EMERGENCY_LED);
    SilentBuzzer(w);
    SilentRest(w);
  }

  lemma SilentLow(w: bv32, k: Pin)
    requires k == LIGHT_LED || k == TRIGGER || k == EMERGENCY_LED
    ensures !IsHigh(w & !INDICATOR_OUTPUTS, k)
  {}

  lemma SilentBuzzer(w: bv32)
    ensures IsHigh(w & !INDICATOR_OUTPUTS, BUZZER) == IsHigh(w, BUZZER)
  {}

  lemma SilentRest(w: bv32)
    ensures (w & !INDICATOR_OUTPUTS) & !LOOP_OUTPUTS == w & !LOOP_OUTPUTS
  {}

  /** ODR after a pass with the button released and a tone: all four loop
      outputs LOW, every other bit as before. */
  lemma AlarmBits(w: bv32)
    ensures var r := w & !LOOP_OUTPUTS;
      !IsHigh(r, LIGHT_LED) && !IsHigh(r, TRIGGER) && !IsHigh(r, EMERGENCY_LED) &&
      !IsHigh(r, BUZZER) && r & !LOOP_OUTPUTS == w & !LOOP_OUTPUTS
  {
    AlarmLow(w, LIGHT_LED);
    AlarmLow(w, TRIGGER);
    AlarmLow(w, EMERGENCY_LED);
    AlarmLow(w, BUZZER);
    AlarmRest(w);
  }

  lemma AlarmLow(w: bv32, k: Pin)
    requires k == LIGHT_LED || k == TRIGGER || k == EMERGENCY_LED || k == BUZZER
    ensures !IsHigh(w & !LOOP_OUTPUTS, k)
  {}

  lemma AlarmRest(w: bv32)
    ensures (w & !LOOP_OUTPUTS) & !LOOP_OUTPUTS == w & !LOOP_OUTPUTS
  {}

  /** ODR after a pass with the button pressed: PA2 HIGH, PA3, PA5 and PA6 LOW,
      every other bit as before. */
  lemma PressedBits(w: bv32)
    ensures var r := (w & !LOOP_OUTPUTS) | Mask(EMERGENCY_LED);
      !IsHigh(r, LIGHT_LED) && !IsHigh(r, TRIGGER) && IsHigh(r, EMERGENCY_LED) &&
      !IsHigh(r, BUZZER) && r & !LOOP_OUTPUTS == w & !LOOP_OUTPUTS
  {
    PressedLow(w, LIGHT_LED);
    PressedLow(w, TRIGGER);
    PressedLow(w, BUZZER);
    PressedOn(w);
    PressedRest(w);
  }

  lemma PressedLow(w: bv32, k: Pin)
    requires k == LIGHT_LED || k == TRIGGER || k == BUZZER
    ensures !IsHigh((w & !LOOP_OUTPUTS) | Mask(EMERGENCY_LED), k)
  {}

  lemma PressedOn(w: bv32)
    ensures IsHigh((w & !LOOP_OUTPUTS) | Mask(EMERGENCY_LED), EMERGENCY_LED)
  {}

  lemma PressedRest(w: bv32)
    ensures ((w & !LOOP_OUTPUTS) | Mask(EMERGENCY_LED)) & !LOOP_OUTPUTS == w & !LOOP_OUTPUTS
  {}

  lemma OutputBits(w: bv32, alarm: bool, buttonHigh: bool)
    ensures var r := OutputsAfter(w, alarm, buttonHigh);
      !IsHigh(r, LIGHT_LED) && !IsHigh(r, TRIGGER) &&
      IsHigh(r, EMERGENCY_LED) == !buttonHigh &&
      IsHigh(r, BUZZER) == (IsHigh(w, BUZZER) && !alarm && buttonHigh) &&
      r & !LOOP_OUTPUTS == w & !LOOP_OUTPUTS
  {
    if buttonHigh && alarm {
      OutputsReleasedAlarm(w);
      AlarmBits(w);
    } else if buttonHigh {
      OutputsReleasedSilent(w);
      SilentBits(w);
    } else {
      OutputsPressed(w, alarm);
      PressedBits(w);
    }
  }

  /** The output pins after one iteration: the indicators and the trigger depend
      only on this iteration's readings (PA3 LOW, PA6 LOW, PA2 HIGH exactly when
      the button reads LOW, so nothing latches); the buzzer is LOW after any tone
      and otherwise keeps its level; every other ODR bit is unchanged. */
  lemma IterationOutputs(w: bv32, sample: int, time: U32, buttonHigh: bool)
    ensures var r, alarm := Replay(w, IterationTrace(sample, time, buttonHigh)), ObstacleAlarm(DistanceCm(time));
      !IsHigh(r, LIGHT_LED) && !IsHigh(r, TRIGGER) &&
      IsHigh(r, EMERGENCY_LED) == !buttonHigh &&
      IsHigh(r, BUZZER) == (IsHigh(w, BUZZER) && !alarm && buttonHigh) &&
      r & !LOOP_OUTPUTS == w & !LOOP_OUTPUTS
  {
    IterationWord(w, sample, time, buttonHigh);
    OutputBits(w, ObstacleAlarm(DistanceCm(time)), buttonHigh);
  }

  /** The same, pin by pin, for the pins the loop body does not write. */
  lemma IterationKeeps(w: bv32, sample: int, time: U32, buttonHigh: bool, j: Pin)
    requires j != EMERGENCY_LED && j != LIGHT_LED && j != BUZZER && j != TRIGGER
    ensures IsHigh(Replay(w, IterationTrace(sample, time, buttonHigh)), j) == IsHigh(w, j)
  {
    IterationOutputs(w, sample, time, buttonHigh);
    LoopOutputsAre(j);
    SameOutside(Replay(w, IterationTrace(sample, time, buttonHigh)), w, LOOP_OUTPUTS, j);
  }

  /** The settling delay writes no pin, so an iteration's writes of a pin are
      those of its three modules and the trigger pulse. */
  lemma IterationDrivesSum(sample: int, time: U32, buttonHigh: bool, k: Pin, high: bool)
    ensures CountDrives(IterationTrace(sample, time, buttonHigh), k, high) ==
      CountDrives(LightTrace(sample), k, high) + CountDrives(RangingTrace(time), k, high)
        + CountDrives(ObstacleTrace(DistanceCm(time)), k, high) + CountDrives(ButtonTrace(buttonHigh), k, high)
  {
    MsDelayEffect(0, SETTLE_MS);
    CountChain(LightTrace(sample), RangingTrace(time), ObstacleTrace(DistanceCm(time)), ButtonTrace(buttonHigh),
      MsDelay(SETTLE_MS), k, high);
  }

  /** How often one iteration drives each output HIGH and LOW: PA3 HIGH once iff
      the sample is above 100 and LOW once always; PA6 HIGH once and LOW once;
      PA2 HIGH once iff the button reads LOW and LOW once iff it reads HIGH;
      PA5 HIGH and LOW 400 times iff the distance is not 3 or 4 cm, plus 280
      times iff the button reads LOW. */
  lemma IterationDrives(sample: int, time: U32, buttonHigh: bool)
    ensures var t, alarm := IterationTrace(sample, time, buttonHigh), ObstacleAlarm(DistanceCm(time));
      CountDrives(t, LIGHT_LED, true) == (if sample > LDR_THRESHOLD then 1 else 0) &&
      CountDrives(t, LIGHT_LED, false) == 1 &&
      CountDrives(t, TRIGGER, true) == 1 &&
      CountDrives(t, TRIGGER, false) == 1 &&
      CountDrives(t, EMERGENCY_LED, true) == (if buttonHigh then 0 else 1) &&
      CountDrives(t, EMERGENCY_LED, false) == (if buttonHigh then 1 else 0) &&
      CountDrives(t, BUZZER, true) == (if alarm then 400 else 0) + (if buttonHigh then 0 else 280) &&
      CountDrives(t, BUZZER, false) == (if alarm then 400 else 0) + (if buttonHigh then 0 else 280)
  {
    ModuleDrives(sample, time, buttonHigh, LIGHT_LED, true);
    ModuleDrives(sample, time, buttonHigh, LIGHT_LED, false);
    ModuleDrives(sample, time, buttonHigh, TRIGGER, true);
    ModuleDrives(sample, time, buttonHigh, TRIGGER, false);
    ModuleDrives(sample, time, buttonHigh, EMERGENCY_LED, true);
    ModuleDrives(sample, time, buttonHigh, EMERGENCY_LED, false);
    ModuleDrives(sample, time, buttonHigh, BUZZER, true);
    ModuleDrives(sample, time, buttonHigh, BUZZER, false);
  }

  /** An iteration never writes a pin other than PA2, PA3, PA5 and PA6, at
      either level: in particular it never drives the inputs PA0 and PA1. */
  lemma IterationWritesOnlyOutputs(sample: int, time: U32, buttonHigh: bool, k: Pin, high: bool)
    requires k != EMERGENCY_LED && k != LIGHT_LED && k != BUZZER && k != TRIGGER
    ensures CountDrives(IterationTrace(sample, time, buttonHigh), k, high) == 0
  {
    ModuleDrives(sample, time, buttonHigh, k, high);
  }

  /** Writes of one pin at one level in one iteration, module by module. */
  lemma ModuleDrives(sample: int, time: U32, buttonHigh: bool, k: Pin, high: bool)
    ensures CountDrives(IterationTrace(sample, time, buttonHigh), k, high) ==
      (if k == LIGHT_LED then (if !high || sample > LDR_THRESHOLD then 1 else 0) else 0)
        + (if k == TRIGGER then 1 else 0)
        + (if k == BUZZER && ObstacleAlarm(DistanceCm(time)) then 400 else 0)
        + (if k == EMERGENCY_LED && high != buttonHigh then 1 else 0)
        + (if k == BUZZER && !buttonHigh then 280 else 0)
  {
    IterationDrivesSum(sample, time, buttonHigh, k, high);
    LightEffect(0, sample);
    RangingEffect(0, time);
    ObstacleEffect(0, DistanceCm(time));
    ButtonEffect(0, buttonHigh);
  }

  /** How long one iteration takes, in NOP iterations: the blink (1,600,000), the
      trigger pulse and the measurement (80 + 8 per counted microsecond), the
      obstacle tone and pause (2,400,000), the emergency tone and pause
      (1,597,440) and the settling delay (80,000). */
  lemma IterationCost(sample: int, time: U32, buttonHigh: bool)
    ensures var alarm := ObstacleAlarm(DistanceCm(time));
      Cost(IterationTrace(sample, time, buttonHigh)) ==
        (if sample > LDR_THRESHOLD then 1600000 else 0) + (80 + 8 * time)
          + (if alarm then 2400000 else 0) + (if buttonHigh then 0 else 1597440) + 80000
  {
    var light, ranging, obstacle := LightTrace(sample), RangingTrace(time), ObstacleTrace(DistanceCm(time));
    var button, settle := ButtonTrace(buttonHigh), MsDelay(SETTLE_MS);
    assert Cost(light) == (if sample > LDR_THRESHOLD then 1600000 else 0) by { LightEffect(0, sample); }
    assert Cost(ranging) == 80 + 8 * time by { RangingEffect(0, time); }
    assert Cost(obstacle) == (if ObstacleAlarm(DistanceCm(time)) then 2400000 else 0) by {
      ObstacleEffect(0, DistanceCm(time));
    }
    assert Cost(button) == (if buttonHigh then 0 else 1597440) by { ButtonEffect(0, buttonHigh); }
    assert Cost(settle) == 80000 by { MsDelayEffect(0, SETTLE_MS); }
    CostChain(light, ranging, obstacle, button, settle);
  }

  /** With the button released, an iteration is silent exactly when the echo
      counter lies in the 3-4 cm window 174..289 (3 * 58 to 5 * 58 - 1); any
      echo outside it, a timed-out one included, sounds 400 obstacle waves. */
  lemma SilentWindow(sample: int, time: U32)
    ensures CountDrives(IterationTrace(sample, time, true), BUZZER, true) == 0 <==> 174 <= time < 290
    ensures !(174 <= time < 290) ==> CountDrives(IterationTrace(sample, time, true), BUZZER, true) == 400
  {
    IterationDrives(sample, time, true);
    var d := DistanceCm(time);
    assert d == 3 || d == 4 <==> 174 <= time < 290;
  }
}

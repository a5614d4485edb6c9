/** `Ultrasonic_Send_Trigger` and `Ultrasonic_Get_Distance`: a 10 microsecond pulse
    on PA6, then the width of the echo pulse on PA1 counted in loop iterations and
    converted to centimetres.

    The echo input is given as `echo: nat -> bool`, where `echo(n)` is bit `ECHO`
    (PA1) of the `n`-th read of IDR during one call. */
module Ultrasonic {
  import opened Registers
  import opened Events
  import opened Timing

  /** The measurement loop gives up once its counter exceeds this. */
  const TIMEOUT: nat := 30000

  /** Microseconds of round trip per centimetre of distance. */
  const US_PER_CM: nat := 58

  /** `Ultrasonic_Send_Trigger`: PA6 HIGH, `delay_us(10)`, PA6 LOW. */
  function TriggerTrace(): seq<Event>
  {
    [Drive(TRIGGER, true), Spin(10), Drive(TRIGGER, false)]
  }

  /** The trigger pulse leaves PA6 LOW, touches no other pin and lasts 80 iterations. */
  lemma TriggerEffect(w: bv32)
    ensures Replay(w, TriggerTrace()) == ClearBit(w, TRIGGER)
    ensures Cost(TriggerTrace()) == 80
    ensures CountDrives(TriggerTrace(), TRIGGER, true) == 1 && CountDrives(TriggerTrace(), TRIGGER, false) == 1
    ensures forall k: Pin, high: bool :: k != TRIGGER ==> CountDrives(TriggerTrace(), k, high) == 0
  {
    var t1 := [Drive(TRIGGER, true)];
    var t2 := t1 + [Spin(10)];
    var t3 := t2 + [Drive(TRIGGER, false)];
    assert t3 == TriggerTrace();
    assert t3[..2] == t2 && t2[..1] == t1 && t1[..0] == [];
    assert Replay(w, t1) == SetBit(w, TRIGGER);
    assert Replay(w, t2) == SetBit(w, TRIGGER);
    assert Cost(t1) == 0;
    assert t2[|t2| - 1] == Spin(10);
    assert Cost(t2) == 80;
    forall k: Pin, high: bool
      ensures CountDrives(t3, k, high) == (if k == TRIGGER then 1 else 0)
    {
      assert CountDrives(t1, k, high) == (if k == TRIGGER && high then 1 else 0);
      assert CountDrives(t2, k, high) == (if k == TRIGGER && high then 1 else 0);
    }
    ClearAfterSet(w, TRIGGER);
  }

  /** Read `r` is the first read that sees the echo HIGH: where the wait at the
      start of the measurement ends. */
  predicate RisesAt(echo: nat -> bool, r: nat)
  {
    echo(r) && forall m: nat :: m < r ==> !echo(m)
  }

  /** If the echo is ever seen HIGH, there is a first read that sees it HIGH. */
  lemma {:induction false} FirstRise(echo: nat -> bool, n: nat)
    requires echo(n)
    ensures exists r: nat :: r <= n && RisesAt(echo, r)
    decreases n
  {
    if forall m: nat :: m < n ==> !echo(m) {
      assert RisesAt(echo, n);
    } else {
      var m: nat :| m < n && echo(m);
      FirstRise(echo, m);
    }
  }

  lemma RiseUnique(echo: nat -> bool, r1: nat, r2: nat)
    requires RisesAt(echo, r1) && RisesAt(echo, r2)
    ensures r1 == r2
  {
    assert r1 < r2 ==> !echo(r1);
    assert r2 < r1 ==> !echo(r2);
  }

  /** The read at which the wait for the echo ends. */
  ghost function Rise(echo: nat -> bool): (r: nat)
    requires exists n: nat :: echo(n)
    ensures RisesAt(echo, r)
  {
    var n: nat :| echo(n);
    FirstRise(echo, n);
    var r: nat :| RisesAt(echo, r);
    r
  }

  /** The final counter of the measurement loop whose first read is read `s`, once
      `time` iterations have run: the length of the run of HIGH reads from `s`,
      capped at `TIMEOUT + 1`. */
  function PulseTime(echo: nat -> bool, s: nat, time: nat): (t: nat)
    requires time <= TIMEOUT
    ensures time <= t <= TIMEOUT + 1
    decreases TIMEOUT - time
  {
    if !echo(s + time) then time
    else if time + 1 > TIMEOUT then time + 1
    else PulseTime(echo, s, time + 1)
  }

  /** The reads the loop consumes from iteration `time` on are all HIGH, and the
      read that ends it before the timeout is LOW. */
  lemma {:induction false} PulseRun(echo: nat -> bool, s: nat, time: nat)
    requires time <= TIMEOUT
    ensures var t := PulseTime(echo, s, time);
      (forall k: nat :: s + time <= k < s + t ==> echo(k)) && (t <= TIMEOUT ==> !echo(s + t))
    decreases TIMEOUT - time
  {
    if echo(s + time) && time + 1 <= TIMEOUT {
      PulseRun(echo, s, time + 1);
    }
  }

  /** The counter that `Ultrasonic_Get_Distance` divides by 58. */
  ghost function EchoTime(echo: nat -> bool): nat
    requires exists n: nat :: echo(n)
  {
    PulseTime(echo, Rise(echo) + 1, 0)
  }

  /** The two ways the measurement loop ends fix its counter: a LOW read after
      `t` HIGH reads, or `TIMEOUT + 1` HIGH reads in a row. */
  lemma PulseTimeUnique(echo: nat -> bool, s: nat, t: nat)
    requires t <= TIMEOUT + 1
    requires forall k: nat :: s <= k < s + t ==> echo(k)
    requires t <= TIMEOUT ==> !echo(s + t)
    ensures PulseTime(echo, s, 0) == t
  {
    PulseRun(echo, s, 0);
    var p := PulseTime(echo, s, 0);
    assert !echo(s + p) || p == TIMEOUT + 1;
  }

  /** Where the two loops of `Ultrasonic_Get_Distance` stop: the wait ends at the
      first HIGH read `rise`, and the measurement loop, reading from `rise + 1`,
      ends after `time` HIGH reads on a LOW read or on passing the timeout. Such a
      `time` is the echo time. */
  lemma MeasuredEcho(echo: nat -> bool, rise: nat, time: nat)
    requires RisesAt(echo, rise)
    requires time <= TIMEOUT + 1
    requires forall k: nat :: rise + 1 <= k < rise + 1 + time ==> echo(k)
    requires time <= TIMEOUT ==> !echo(rise + 1 + time)
    ensures exists n: nat :: echo(n)
    ensures EchoTime(echo) == time
  {
    RiseUnique(echo, rise, Rise(echo));
    PulseTimeUnique(echo, rise + 1, time);
  }

  /** The counter reaches `TIMEOUT + 1` exactly when the echo stays HIGH for
      `TIMEOUT + 1` reads in a row. */
  lemma PulseTimeout(echo: nat -> bool, s: nat)
    ensures PulseTime(echo, s, 0) == TIMEOUT + 1 <==> forall k: nat :: s <= k <= s + TIMEOUT ==> echo(k)
  {
    PulseRun(echo, s, 0);
    var p := PulseTime(echo, s, 0);
    if p <= TIMEOUT {
      assert !echo(s + p);
    }
  }

  /** `time / 58`: the distance in centimetres for a round trip of `time`
      microseconds. */
  function DistanceCm(time: U32): (d: U32)
    ensures d * US_PER_CM <= time < (d + 1) * US_PER_CM
  {
    time / US_PER_CM
  }

  /** A measurement never reports more than 517 cm, and a timed-out one reports
      exactly 517 cm, an ordinary distance rather than an error value. */
  lemma DistanceBound(echo: nat -> bool, s: nat)
    ensures DistanceCm(PulseTime(echo, s, 0)) <= 517
    ensures (forall k: nat :: s <= k <= s + TIMEOUT ==> echo(k)) ==> DistanceCm(PulseTime(echo, s, 0)) == 517
  {
    PulseTimeout(echo, s);
  }

  /** `Ultrasonic_Get_Distance` after the echo has risen: the trigger pulse, then
      one `delay_us(1)` per iteration of the measurement loop. */
  function RangingTrace(time: nat): seq<Event>
  {
    TriggerTrace() + Repeat(time, [Spin(1)])
  }

  /** A measurement leaves PA6 LOW, writes nothing but PA6, and costs 80 iterations
      for the trigger plus 8 per microsecond counted. */
  lemma RangingEffect(w: bv32, time: nat)
    ensures Replay(w, RangingTrace(time)) == ClearBit(w, TRIGGER)
    ensures Cost(RangingTrace(time)) == 80 + 8 * time
    ensures CountDrives(RangingTrace(time), TRIGGER, true) == 1 && CountDrives(RangingTrace(time), TRIGGER, false) == 1
    ensures forall k: Pin, high: bool :: k != TRIGGER ==> CountDrives(RangingTrace(time), k, high) == 0
  {
    var spins := Repeat(time, [Spin(1)]);
    TriggerEffect(w);
    ReplayAppend(w, TriggerTrace(), spins);
    ReplaySpins(ClearBit(w, TRIGGER), time, 1);
    CostAppend(TriggerTrace(), spins);
    assert Cost([Spin(1)]) == 8 by {
      assert [Spin(1 as U32)][..0] == [];
    }
    CostRepeat(time, [Spin(1)]);
    forall k: Pin, high: bool
      ensures CountDrives(RangingTrace(time), k, high) == CountDrives(TriggerTrace(), k, high)
    {
      assert [Spin(1 as U32)][..0] == [];
      CountRepeat(time, [Spin(1)], k, high);
      CountAppend(TriggerTrace(), spins, k, high);
    }
  }
}

/** `Buzzer_Beep(frequency, duration_ms)`: the tone generator on PA5 shared by the
    obstacle alarm and the emergency button. */
module Buzzer {
  import opened Registers
  import opened Events
  import opened Timing

  /** `(1000000 / frequency) / 2`: the microseconds of each HIGH and each LOW half
      of one wave. Truncating twice gives the same as halving the period exactly,
      and a frequency above 500 kHz gives a zero-length half-period. */
  function HalfPeriod(frequency: U32): (h: U32)
    requires frequency > 0
    ensures h == 500000 / frequency
    ensures h == 0 <==> frequency > 500000
  {
    var period := 1000000 / frequency;
    HalvedQuotient(1000000, frequency);
    SmallQuotient(500000, frequency);
    period / 2
  }

  /** `(frequency * duration_ms) / 1000` with the product taken in `uint32_t`:
      the number of waves. It is the exact quotient while the product fits in
      32 bits and is never more than that once it wraps. */
  function Cycles(frequency: U32, durationMs: U32): (c: U32)
    ensures frequency * durationMs < WORD ==> c == frequency * durationMs / 1000
    ensures c <= frequency * durationMs / 1000
    ensures c <= (WORD - 1) / 1000
  {
    var product := (frequency * durationMs) % WORD;
    DivMonotone(product, frequency * durationMs, 1000);
    DivMonotone(product, WORD - 1, 1000);
    product / 1000
  }

  lemma MulAtLeast(d: int, f: int)
    requires d >= 1 && f > 0
    ensures d * f >= f
  {}

  /** Quotient and remainder are the only pair with `n == q * f + r` and `0 <= r < f`. */
  lemma DivUnique(n: int, f: int, q: int, r: int)
    requires f > 0 && n == q * f + r && 0 <= r < f
    ensures n / f == q && n % f == r
  {
    var q', r' := n / f, n % f;
    assert (q - q') * f == r' - r;
    if q > q' {
      MulAtLeast(q - q', f);
    } else if q < q' {
      assert (q' - q) * f == r - r';
      MulAtLeast(q' - q, f);
    }
  }

  lemma SmallQuotient(n: nat, f: nat)
    requires f > 0
    ensures n / f == 0 <==> n < f
  {
    if n < f {
      DivUnique(n, f, 0, n);
    }
  }

  lemma HalvedQuotient(n: nat, f: nat)
    requires f > 0 && n % 2 == 0
    ensures (n / f) / 2 == (n / 2) / f
  {
    var q, r := n / f, n % f;
    var h, e := q / 2, q % 2;
    assert n == (2 * h + e) * f + r;
    assert n == 2 * (h * f) + (e * f + r);
    var s := (e * f + r) / 2;
    assert e * f + r == 2 * s;
    assert n / 2 == h * f + s;
    assert s < f;
    DivUnique(n / 2, f, h, s);
  }

  lemma DivMonotone(x: nat, y: nat, d: nat)
    requires x <= y && d > 0
    ensures x / d <= y / d
  {
    if x / d > y / d {
      assert (x / d - y / d) * d == (x / d) * d - (y / d) * d;
      MulAtLeast(x / d - y / d, d);
    }
  }

  /** One iteration of the tone loop: HIGH, half a period, LOW, half a period. */
  function Wave(halfPeriod: U32): seq<Event>
  {
    [Drive(BUZZER, true), Spin(halfPeriod), Drive(BUZZER, false), Spin(halfPeriod)]
  }

  /** Everything `Buzzer_Beep(frequency, durationMs)` does, in order. */
  function ToneTrace(frequency: U32, durationMs: U32): seq<Event>
  {
    if frequency == 0 then [] else Repeat(Cycles(frequency, durationMs), Wave(HalfPeriod(frequency)))
  }

  lemma WaveEffect(w: bv32, h: U32)
    ensures Replay(w, Wave(h)) == ClearBit(w, BUZZER)
    ensures Cost(Wave(h)) == 2 * DelayIterations(h)
    ensures CountDrives(Wave(h), BUZZER, true) == 1 && CountDrives(Wave(h), BUZZER, false) == 1
    ensures forall k: Pin, high: bool :: k != BUZZER ==> CountDrives(Wave(h), k, high) == 0
  {
    var t1 := [Drive(BUZZER, true)];
    var t2 := t1 + [Spin(h)];
    var t3 := t2 + [Drive(BUZZER, false)];
    var t4 := t3 + [Spin(h)];
    assert t4 == Wave(h);
    assert t4[..3] == t3 && t3[..2] == t2 && t2[..1] == t1 && t1[..0] == [];
    assert Replay(w, t1) == SetBit(w, BUZZER);
    assert Replay(w, t2) == SetBit(w, BUZZER);
    assert Replay(w, t3) == ClearBit(SetBit(w, BUZZER), BUZZER);
    assert Replay(w, t4) == ClearBit(SetBit(w, BUZZER), BUZZER);
    assert Cost(t1) == 0;
    assert t2[|t2| - 1] == Spin(h) && t4[|t4| - 1] == Spin(h);
    assert Cost(t2) == DelayIterations(h) && Cost(t3) == DelayIterations(h);
    forall k: Pin, high: bool
      ensures CountDrives(t4, k, high) == (if k == BUZZER then 1 else 0)
    {
      assert CountDrives(t1, k, high) == (if k == BUZZER && high then 1 else 0);
      assert CountDrives(t2, k, high) == (if k == BUZZER && high then 1 else 0);
      assert CountDrives(t3, k, high) == (if k == BUZZER then 1 else 0);
    }
    ClearAfterSet(w, BUZZER);
  }

  /** `n` waves leave the buzzer LOW when there was at least one, and touch no other pin. */
  lemma {:induction false} ReplayWaves(w: bv32, n: nat, h: U32)
    ensures Replay(w, Repeat(n, Wave(h))) == if n == 0 then w else ClearBit(w, BUZZER)
  {
    if n > 0 {
      ReplayWaves(w, n - 1, h);
      ReplayAppend(w, Repeat(n - 1, Wave(h)), Wave(h));
      var before := Replay(w, Repeat(n - 1, Wave(h)));
      WaveEffect(before, h);
      ClearAfterSet(w, BUZZER);
    }
  }

  /** The observable effect of `Buzzer_Beep`: nothing at all for frequency 0;
      otherwise exactly `Cycles` HIGH writes and `Cycles` LOW writes of the buzzer
      pin and no write of any other pin, `2 * Cycles` half-period delays, and the
      buzzer left LOW if any wave was played. */
  lemma ToneEffect(w: bv32, frequency: U32, durationMs: U32)
    ensures frequency == 0 ==> ToneTrace(frequency, durationMs) == []
    ensures var c := if frequency == 0 then 0 else Cycles(frequency, durationMs);
      CountDrives(ToneTrace(frequency, durationMs), BUZZER, true) == c &&
      CountDrives(ToneTrace(frequency, durationMs), BUZZER, false) == c
    ensures forall k: Pin, high: bool :: k != BUZZER ==> CountDrives(ToneTrace(frequency, durationMs), k, high) == 0
    ensures Cost(ToneTrace(frequency, durationMs)) ==
      if frequency == 0 then 0 else Cycles(frequency, durationMs) * (2 * DelayIterations(HalfPeriod(frequency)))
    ensures Replay(w, ToneTrace(frequency, durationMs)) ==
      if frequency > 0 && Cycles(frequency, durationMs) > 0 then ClearBit(w, BUZZER) else w
  {
    if frequency > 0 {
      var c, h := Cycles(frequency, durationMs), HalfPeriod(frequency);
      WaveEffect(w, h);
      CountRepeat(c, Wave(h), BUZZER, true);
      CountRepeat(c, Wave(h), BUZZER, false);
      forall k: Pin, high: bool | k != BUZZER
        ensures CountDrives(ToneTrace(frequency, durationMs), k, high) == 0
      {
        CountRepeat(c, Wave(h), k, high);
      }
      CostRepeat(c, Wave(h));
      ReplayWaves(w, c, h);
    }
  }

  /** The order of the writes: wave `i` is HIGH, `delay_us(half)`, LOW, `delay_us(half)`. */
  lemma ToneOrder(frequency: U32, durationMs: U32, i: nat)
    requires frequency > 0 && i < Cycles(frequency, durationMs)
    ensures var t, h := ToneTrace(frequency, durationMs), HalfPeriod(frequency);
      4 * i + 3 < |t| &&
      t[4 * i] == Drive(BUZZER, true) && t[4 * i + 1] == Spin(h) &&
      t[4 * i + 2] == Drive(BUZZER, false) && t[4 * i + 3] == Spin(h)
  {
    var c, h := Cycles(frequency, durationMs), HalfPeriod(frequency);
    RepeatAt(c, Wave(h), i, 0);
    RepeatAt(c, Wave(h), i, 1);
    RepeatAt(c, Wave(h), i, 2);
    RepeatAt(c, Wave(h), i, 3);
  }
}

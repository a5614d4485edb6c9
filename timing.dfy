/** The busy-wait delays `delay_us` and `delay_ms`. Time is measured in iterations
    of the `__NOP()` loop, not in microseconds: how long an iteration takes depends
    on the core clock. */
module Timing {
  import opened Registers
  import opened Events

  /** Busy-loop iterations per microsecond, the multiplier in `delay_us`. */
  const LOOPS_PER_US: nat := 8

  /** Iterations of the loop in `delay_us(us)`: the bound `us * 8` is a `uint32_t`
      product, so it wraps for `us >= 2^29`. */
  function DelayIterations(us: U32): (n: U32)
    ensures us < WORD / LOOPS_PER_US ==> n == LOOPS_PER_US * us
    ensures WORD / LOOPS_PER_US <= us ==> n < LOOPS_PER_US * us
  {
    (us * LOOPS_PER_US) % WORD
  }

  /** NOP iterations spent by the delays of a trace. */
  function Cost(t: seq<Event>): nat
    decreases |t|
  {
    if t == [] then 0
    else Cost(t[..|t| - 1]) + (match t[|t| - 1] case Spin(us) => DelayIterations(us) case Drive(_, _) => 0)
  }

  lemma {:induction false} CostAppend(a: seq<Event>, b: seq<Event>)
    ensures Cost(a + b) == Cost(a) + Cost(b)
    decreases |b|
  {
    if b == [] {
      assert a + b == a;
    } else {
      var b' := b[..|b| - 1];
      assert (a + b)[..|a + b| - 1] == a + b';
      CostAppend(a, b');
    }
  }

  /** The delays of five pieces run one after the other add up. */
  lemma CostChain(a: seq<Event>, b: seq<Event>, c: seq<Event>, d: seq<Event>, e: seq<Event>)
    ensures Cost(a + b + c + d + e) == Cost(a) + Cost(b) + Cost(c) + Cost(d) + Cost(e)
  {
    CostAppend(a, b);
    CostAppend(a + b, c);
    CostAppend(a + b + c, d);
    CostAppend(a + b + c + d, e);
  }

  lemma {:induction false} CostRepeat(n: nat, b: seq<Event>)
    ensures Cost(Repeat(n, b)) == n * Cost(b)
  {
    if n > 0 {
      CostRepeat(n - 1, b);
      CostAppend(Repeat(n - 1, b), b);
      MulStep(n, Cost(b));
    }
  }

  /** `delay_ms(ms)`: `ms` calls of `delay_us(1000)`. */
  function MsDelay(ms: U32): seq<Event>
  {
    Repeat(ms, [Spin(1000)])
  }

  /** `delay_ms(ms)` spends exactly `8000 * ms` iterations (1000 * 8 never wraps),
      writes no pin and so leaves ODR as it was. */
  lemma MsDelayEffect(w: bv32, ms: U32)
    ensures Cost(MsDelay(ms)) == 8000 * ms
    ensures Replay(w, MsDelay(ms)) == w
    ensures forall k: Pin, high: bool :: CountDrives(MsDelay(ms), k, high) == 0
  {
    assert Cost([Spin(1000)]) == 8000 by {
      assert [Spin(1000 as U32)][..0] == [];
    }
    CostRepeat(ms, [Spin(1000)]);
    ReplaySpins(w, ms, 1000);
    forall k: Pin, high: bool ensures CountDrives(MsDelay(ms), k, high) == 0 {
      assert [Spin(1000 as U32)][..0] == [];
      CountRepeat(ms, [Spin(1000)], k, high);
    }
  }
}

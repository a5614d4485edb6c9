/** The observable history of the firmware: every write of a pin through ODR and
    every call of delay_us, in the order they happen. */
module Events {
  import opened Registers

  /** `Drive(k, true)` is `ODR |= (1 << k)`, `Drive(k, false)` is `ODR &= ~(1 << k)`;
      `Spin(us)` is one call `delay_us(us)`. */
  datatype Event = Drive(pin: Pin, high: bool) | Spin(us: U32)

  /** The effect of one event on the ODR word. */
  function Step(w: bv32, e: Event): bv32
  {
    match e
    case Drive(k, high) => if high then SetBit(w, k) else ClearBit(w, k)
    case Spin(_) => w
  }

  /** The ODR word after the writes of `t`, starting from `w`. */
  function Replay(w: bv32, t: seq<Event>): bv32
    decreases |t|
  {
    if t == [] then w else Step(Replay(w, t[..|t| - 1]), t[|t| - 1])
  }

  /** The number of writes in `t` that drive pin `k` to the level `high`. */
  function CountDrives(t: seq<Event>, k: Pin, high: bool): nat
    decreases |t|
  {
    if t == [] then 0
    else CountDrives(t[..|t| - 1], k, high) + (if t[|t| - 1] == Drive(k, high) then 1 else 0)
  }

  /** `b` performed `n` times in a row, the trace of a counting loop whose body does `b`. */
  function Repeat(n: nat, b: seq<Event>): seq<Event>
  {
    if n == 0 then [] else Repeat(n - 1, b) + b
  }

  /** `n` times `c` is `n - 1` times `c`, plus `c`. */
  lemma MulStep(n: nat, c: nat)
    requires n > 0
    ensures n * c == (n - 1) * c + c
  {}

  /** Appending `b` and then `c` appends `b + c`. */
  lemma AppendAssoc(a: seq<Event>, b: seq<Event>, c: seq<Event>)
    ensures a + b + c == a + (b + c)
  {}

  /** Appending five pieces one after the other appends their concatenation. */
  lemma AppendAssoc5(t: seq<Event>, a: seq<Event>, b: seq<Event>, c: seq<Event>, d: seq<Event>, e: seq<Event>)
    ensures t + a + b + c + d + e == t + (a + b + c + d + e)
  {
    AppendAssoc(t, a, b);
    AppendAssoc(t, a + b, c);
    AppendAssoc(t, a + b + c, d);
    AppendAssoc(t, a + b + c + d, e);
  }

  lemma {:induction false} ReplayAppend(w: bv32, a: seq<Event>, b: seq<Event>)
    ensures Replay(w, a + b) == Replay(Replay(w, a), b)
    decreases |b|
  {
    if b == [] {
      assert a + b == a;
    } else {
      var b' := b[..|b| - 1];
      assert (a + b)[..|a + b| - 1] == a + b';
      ReplayAppend(w, a, b');
    }
  }

  lemma {:induction false} CountAppend(a: seq<Event>, b: seq<Event>, k: Pin, high: bool)
    ensures CountDrives(a + b, k, high) == CountDrives(a, k, high) + CountDrives(b, k, high)
    decreases |b|
  {
    if b == [] {
      assert a + b == a;
    } else {
      var b' := b[..|b| - 1];
      assert (a + b)[..|a + b| - 1] == a + b';
      CountAppend(a, b', k, high);
    }
  }

  /** A loop that repeats `b` drives pin `k` to `high` exactly `n` times as often as `b` does. */
  lemma {:induction false} CountRepeat(n: nat, b: seq<Event>, k: Pin, high: bool)
    ensures CountDrives(Repeat(n, b), k, high) == n * CountDrives(b, k, high)
  {
    if n > 0 {
      CountRepeat(n - 1, b, k, high);
      CountAppend(Repeat(n - 1, b), b, k, high);
      MulStep(n, CountDrives(b, k, high));
    }
  }

  lemma {:induction false} RepeatLength(n: nat, b: seq<Event>)
    ensures |Repeat(n, b)| == n * |b|
  {
    if n > 0 {
      RepeatLength(n - 1, b);
    }
  }

  /** Event `j` of the `i`-th round of a repeated block is event `j` of the block. */
  lemma {:induction false} RepeatAt(n: nat, b: seq<Event>, i: nat, j: nat)
    requires i < n && j < |b|
    ensures i * |b| + j < |Repeat(n, b)|
    ensures Repeat(n, b)[i * |b| + j] == b[j]
  {
    RepeatLength(n - 1, b);
    if i < n - 1 {
      RepeatAt(n - 1, b, i, j);
    } else {
      assert i * |b| == |Repeat(n - 1, b)|;
    }
  }

  /** Five pieces run one after the other take ODR through the states each
      piece leads to. */
  lemma ReplayChain(w: bv32, a: seq<Event>, b: seq<Event>, c: seq<Event>, d: seq<Event>, e: seq<Event>,
                    w1: bv32, w2: bv32, w3: bv32, w4: bv32)
    requires Replay(w, a) == w1 && Replay(w1, b) == w2 && Replay(w2, c) == w3
    requires Replay(w3, d) == w4 && Replay(w4, e) == w4
    ensures Replay(w, a + b + c + d + e) == w4
  {
    ReplayAppend(w, a, b);
    ReplayAppend(w, a + b, c);
    ReplayAppend(w, a + b + c, d);
    ReplayAppend(w, a + b + c + d, e);
  }

  /** Drives of five pieces run one after the other add up. */
  lemma CountChain(a: seq<Event>, b: seq<Event>, c: seq<Event>, d: seq<Event>, e: seq<Event>, k: Pin, high: bool)
    ensures CountDrives(a + b + c + d + e, k, high) ==
      CountDrives(a, k, high) + CountDrives(b, k, high) + CountDrives(c, k, high)
        + CountDrives(d, k, high) + CountDrives(e, k, high)
  {
    CountAppend(a, b, k, high);
    CountAppend(a + b, c, k, high);
    CountAppend(a + b + c, d, k, high);
    CountAppend(a + b + c + d, e, k, high);
  }

  /** Repeated delays leave ODR untouched. */
  lemma {:induction false} ReplaySpins(w: bv32, n: nat, us: U32)
    ensures Replay(w, Repeat(n, [Spin(us)])) == w
  {
    if n > 0 {
      ReplaySpins(w, n - 1, us);
      ReplayAppend(w, Repeat(n - 1, [Spin(us)]), [Spin(us)]);
      assert Replay(w, [Spin(us)]) == w by {
        assert [Spin(us)][..0] == [];
      }
    }
  }
}

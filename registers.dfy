/** The GPIOA output data register (ODR) as a 32-bit word, the pin numbers the
    firmware uses, and the two read-modify-write operations it performs on the
    register: `ODR |= (1 << k)` and `ODR &= ~(1 << k)`. */
module Registers {

  /** A `uint32_t` value. */
  type U32 = x: int | 0 <= x < 0x1_0000_0000

  const WORD: int := 0x1_0000_0000

  /** A bit position of a 32-bit register. */
  type Pin = k: bv32 | k < 32

  // Port A pin assignment.
  const BUTTON: Pin := 0         // PA0: emergency button, input with pull-up (pressed reads LOW)
  const ECHO: Pin := 1           // PA1: ultrasonic echo, input
  const EMERGENCY_LED: Pin := 2  // PA2: emergency indicator, output
  const LIGHT_LED: Pin := 3      // PA3: light indicator, output
  const BUZZER: Pin := 5         // PA5: shared buzzer, output
  const TRIGGER: Pin := 6        // PA6: ultrasonic trigger, output

  /** The value of ODR after reset. */
  const RESET_VALUE: bv32 := 0

  function Mask(k: Pin): bv32 { 1 << k }

  /** Bit `k` of `w` is set (the pin is driven HIGH). */
  predicate IsHigh(w: bv32, k: Pin) { w & Mask(k) != 0 }

  lemma SetKeeps(w: bv32, k: Pin, j: Pin)
    requires j != k
    ensures IsHigh(w | Mask(k), j) == IsHigh(w, j)
  {}

  lemma ClearKeeps(w: bv32, k: Pin, j: Pin)
    requires j != k
    ensures IsHigh(w & !Mask(k), j) == IsHigh(w, j)
  {}

  /** `w | (1 << k)`: drives pin `k` HIGH and leaves every other bit alone. */
  function SetBit(w: bv32, k: Pin): (r: bv32)
    ensures IsHigh(r, k)
    ensures forall j: Pin :: j != k ==> IsHigh(r, j) == IsHigh(w, j)
  {
    forall j: Pin | j != k ensures IsHigh(w | Mask(k), j) == IsHigh(w, j) {
      SetKeeps(w, k, j);
    }
    w | Mask(k)
  }

  /** `w & ~(1 << k)`: drives pin `k` LOW and leaves every other bit alone. */
  function ClearBit(w: bv32, k: Pin): (r: bv32)
    ensures !IsHigh(r, k)
    ensures forall j: Pin :: j != k ==> IsHigh(r, j) == IsHigh(w, j)
  {
    forall j: Pin | j != k ensures IsHigh(w & !Mask(k), j) == IsHigh(w, j) {
      ClearKeeps(w, k, j);
    }
    w & !Mask(k)
  }

  /** Writing a pin's level twice keeps only the second write. */
  lemma ClearAfterSet(w: bv32, k: Pin)
    ensures ClearBit(SetBit(w, k), k) == ClearBit(w, k)
    ensures ClearBit(ClearBit(w, k), k) == ClearBit(w, k)
  {}

  /** Bits outside `m` that agree word-wise agree one by one. */
  lemma SameOutside(r: bv32, w: bv32, m: bv32, j: Pin)
    requires r & !m == w & !m && !IsHigh(m, j)
    ensures IsHigh(r, j) == IsHigh(w, j)
  {}
}

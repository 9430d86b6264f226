/**
 * The fixed-width integer types of the firmware and the C++ conversions between them.
 * Dafny integers are unbounded, so every narrowing the firmware performs implicitly is
 * written out here once and used everywhere else.
 */
module FixedWidth {

  type uint8 = x: int | 0 <= x < 0x100
  type uint16 = x: int | 0 <= x < 0x1_0000
  type uint32 = x: int | 0 <= x < 0x1_0000_0000
  type int32 = x: int | -0x8000_0000 <= x < 0x8000_0000

  /** Conversion of any integer to an 8-bit unsigned type: reduction modulo 2^8. */
  function ToUint8(n: int): (r: uint8)
    ensures (n - r) % 0x100 == 0
    ensures 0 <= n < 0x100 ==> r == n
  {
    n % 0x100
  }

  /** Conversion of any integer to a 32-bit unsigned type: reduction modulo 2^32. */
  function ToUint32(n: int): (r: uint32)
    ensures (n - r) % 0x1_0000_0000 == 0
    ensures 0 <= n < 0x1_0000_0000 ==> r == n
  {
    n % 0x1_0000_0000
  }

  /** Two's-complement reinterpretation of a 32-bit pattern as a signed value (as `(int)u` and `(gpio_num_t)u` do). */
  function ToInt32(u: uint32): (r: int32)
    ensures ToUint32(r) == u
    ensures 0 <= r ==> r == u
  {
    if u < 0x8000_0000 then u else u - 0x1_0000_0000
  }

  /** Narrowing to 32 bits first and then to 8 bits is the same as narrowing to 8 bits directly. */
  lemma NarrowTwice(n: int)
    ensures ToUint8(ToUint32(n)) == ToUint8(n)
    ensures ToUint8(ToInt32(ToUint32(n))) == ToUint8(n)
  {
    var q := n / 0x1_0000_0000;
    assert n == q * 0x1_0000_0000 + ToUint32(n);
    assert q * 0x1_0000_0000 == (q * 0x100_0000) * 0x100;
    ModMultipleShift(ToUint32(n), q * 0x100_0000);
    var u: int := ToUint32(n);
    if u >= 0x8000_0000 {
      assert ToInt32(u) as int == u + (-1) * 0x1_0000_0000;
      assert (-1) * 0x1_0000_0000 == (-0x100_0000) * 0x100;
      ModMultipleShift(u, -0x100_0000);
    }
  }

  /** Adding a multiple of 2^8 does not change the 8-bit residue. */
  lemma ModMultipleShift(a: int, k: int)
    ensures (a + k * 0x100) % 0x100 == a % 0x100
  {
  }

  /** A 32-bit value read back through the signed reinterpretation and the unsigned one is unchanged. */
  lemma Int32RoundTrip(x: int32)
    ensures ToInt32(ToUint32(x)) == x
  {
  }
}

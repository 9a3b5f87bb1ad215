/**
 * The fixed-width unsigned integer types the firmware declares its fields
 * and parameters with, as bounded subranges of `int`, and a small `Option`.
 *
 * Values used only arithmetically (struct fields, `numBits`, byte indices)
 * use these newtypes. The bit reader's buffer bytes and `outVal`, which it
 * shifts, masks and ORs, are the bit-vectors `bv8`, `bv16` and `bv32` of the
 * same widths instead, since Dafny's bitwise operators are defined on those.
 */
module IntTypes {

  /** 2^n. */
  function Pow2(n: nat): (r: nat)
    ensures r >= 1
  {
    if n == 0 then 1 else 2 * Pow2(n - 1)
  }

  lemma {:induction false} Pow2Add(a: nat, b: nat)
    ensures Pow2(a + b) == Pow2(a) * Pow2(b)
  {
    if a > 0 {
      Pow2Add(a - 1, b);
    }
  }

  /** 2^n grows with n. */
  lemma {:induction false} Pow2Monotone(a: nat, b: nat)
    requires a <= b
    ensures Pow2(a) <= Pow2(b)
  {
    if a < b {
      Pow2Monotone(a, b - 1);
    }
  }

  /** Number of distinct `size_t` values; `size_t` is taken to be 64 bits wide. */
  const SizeModulus: nat := 0x1_0000_0000_0000_0000

  newtype uint8 = x: int | 0 <= x < 0x100
  newtype uint16 = x: int | 0 <= x < 0x1_0000
  newtype uint32 = x: int | 0 <= x < 0x1_0000_0000
  newtype size_t = x: int | 0 <= x < 0x1_0000_0000_0000_0000

  datatype Option<T> = None | Some(value: T)
}

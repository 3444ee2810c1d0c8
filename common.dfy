/** Fixed-width machine integers, an Option type and the byte-level helpers
    that several components of the BNO08x bridge share. */
module Common {

  const TWO_8: nat := 0x100
  const TWO_16: nat := 0x1_0000
  const TWO_32: nat := 0x1_0000_0000
  const TWO_64: nat := 0x1_0000_0000_0000_0000

  type u8 = x: int | 0 <= x < TWO_8
  type u16 = x: int | 0 <= x < TWO_16
  type u32 = x: int | 0 <= x < TWO_32

  datatype Option<+T> = None | Some(value: T)

  /** The C conversion of a non-negative integer to uint32_t: keep the low 32 bits. */
  function TruncU32(x: nat): (r: u32)
    ensures r < TWO_32
    ensures x < TWO_32 ==> r == x
  {
    x % TWO_32
  }

  /** Reading two bytes as a little-endian 16-bit word. */
  function LoadLe16(lo: u8, hi: u8): (w: u16)
    ensures w % TWO_8 == lo && w / TWO_8 == hi
  {
    lo + TWO_8 * hi
  }

  /** Reinterpreting a 16-bit word as a two's-complement int16_t. */
  function AsInt16(w: u16): (v: int)
    ensures -0x8000 <= v < 0x8000
    ensures (v + TWO_16) % TWO_16 == w
  {
    if w < 0x8000 then w else w - TWO_16
  }

  /** Truncating a 64-bit unsigned value to its low 32 bits keeps the value
      modulo 2^32: (x mod 2^64) mod 2^32 == x mod 2^32. */
  lemma {:induction false} ModWiden(x: nat)
    ensures (x % TWO_64) % TWO_32 == x % TWO_32
  {
    var q := x / TWO_64;
    var r := x % TWO_64;
    assert x == q * TWO_64 + r;
    assert q * TWO_64 == (q * TWO_32) * TWO_32;
    ModAddMultiple(r, q * TWO_32);
  }

  lemma {:induction false} ModAddMultiple(r: nat, k: nat)
    ensures (k * TWO_32 + r) % TWO_32 == r % TWO_32
  {
    var a := r / TWO_32;
    var b := r % TWO_32;
    assert r == a * TWO_32 + b;
    assert k * TWO_32 + r == (k + a) * TWO_32 + b;
  }
}

/** Machine-integer helpers: the program's `saturating_*` operations on `u64` and `u32`,
    written out on unbounded integers, and ceiling division. */
module Widths {

  const U32_MAX: nat := 0xFFFF_FFFF
  const U64_MAX: nat := 0xFFFF_FFFF_FFFF_FFFF

  type u32 = x: int | 0 <= x <= 0xFFFF_FFFF
  type u64 = x: int | 0 <= x <= 0xFFFF_FFFF_FFFF_FFFF

  type byte = x: int | 0 <= x < 256

  function Min(a: int, b: int): int { if a <= b then a else b }

  function Max(a: int, b: int): int { if a <= b then b else a }

  function SatAdd(a: u64, b: u64): u64 { Min(a + b, U64_MAX) }

  function SatSub(a: u64, b: u64): u64 { Max(a - b, 0) }

  /** Bytes of the inclusive range `[start, end]`; the program never yields 0, not even for an inverted one. */
  function RangeLength(start: nat, end: nat): nat { Max(end - start, 0) + 1 }

  /** The same on machine words. */
  function SatRangeLength(start: u64, end: u64): u64 { SatAdd(SatSub(end, start), 1) }

  function SatInc32(a: u32): u32 { Min(a + 1, U32_MAX) }

  function SatMul(a: u64, b: u64): u64
  {
    assert 0 <= a * b;
    Min(a * b, U64_MAX)
  }

  function CeilDiv(a: nat, b: nat): nat
    requires b > 0
  {
    (a + b - 1) / b
  }

  /** `CeilDiv(a, b)` is the least `q` with `q * b >= a`. */
  lemma CeilDivLeast(a: nat, b: nat, q: nat)
    requires b > 0
    ensures CeilDiv(a, b) <= q <==> a <= q * b
  {
    var c := CeilDiv(a, b);
    var n := a + b - 1;
    assert n == b * (n / b) + n % b;
    assert a <= c * b < a + b by {
      assert c * b == n - n % b;
    }
    if c <= q {
      assert c * b <= q * b by { MulMono(c, q, b); }
    } else {
      assert (q + 1) * b <= c * b by { MulMono(q + 1, c, b); }
      assert (q + 1) * b == q * b + b;
    }
  }

  lemma MulMono(x: nat, y: nat, b: nat)
    requires x <= y
    ensures x * b <= y * b
  {
    assert y * b == x * b + (y - x) * b;
  }

  lemma MulCancel(x: nat, y: nat, b: nat)
    requires x * b < y * b + b
    ensures x <= y
  {
    if y + 1 <= x {
      MulMono(y + 1, x, b);
    }
  }

  lemma DivUnique(x: nat, w: nat, q: nat)
    requires w > 0 && q * w <= x < q * w + w
    ensures x / w == q
  {
    var d := x / w;
    assert x == d * w + x % w;
    MulCancel(d, q, w);
    MulCancel(q, d, w);
  }
}

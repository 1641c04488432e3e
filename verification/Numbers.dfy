/** Fixed-width arithmetic of the contract: the saturating decimal product,
    the rounded-up fee share, and the time constants. */
module Numbers {

  const U64_MAX: nat := 0xFFFF_FFFF_FFFF_FFFF
  const U128_MAX: nat := 0xFFFF_FFFF_FFFF_FFFF_FFFF_FFFF_FFFF_FFFF
  const I64_MIN: int := -0x8000_0000_0000_0000

  const MS_IN_DAY: nat := 86_400_000
  const MS_IN_YEAR: nat := 31_536_000_000

  type TokenAmount = nat
  type Timestamp = nat
  type Duration = nat

  function Min(a: int, b: int): int {
    if a <= b then a else b
  }

  function Max(a: int, b: int): int {
    if a <= b then b else a
  }

  /** Unsigned subtraction that stops at zero. */
  function SaturatingSub(a: nat, b: nat): nat {
    if a <= b then 0 else a - b
  }

  function StartOfTheDay(t: Timestamp): Timestamp {
    t - t % MS_IN_DAY
  }

  function Day(t: Timestamp): nat {
    t / MS_IN_DAY
  }

  function Pow10(e: nat): (r: nat)
    ensures r > 0
  {
    if e == 0 then 1 else 10 * Pow10(e - 1)
  }

  /** Unsigned integer division, with the bounds that determine it. */
  function Quotient(x: nat, y: nat): (q: nat)
    requires y > 0
    ensures q * y <= x < q * y + y
  {
    var q: int := x / y;
    assert x == y * q + x % y;
    NegativeMultiple(y, q);
    q
  }

  lemma NegativeMultiple(y: nat, q: int)
    ensures q < 0 ==> y * q + y <= 0
  {
  }

  lemma QuotientUnique(x: nat, y: nat, q: nat)
    requires y > 0
    requires q * y <= x < q * y + y
    ensures Quotient(x, y) == q
  {
    var r := Quotient(x, y);
    assert r < q ==> (r + 1) * y <= q * y;
    assert q < r ==> (q + 1) * y <= r * y;
  }

  lemma QuotientAtMost(x: nat, y: nat, k: nat)
    requires y > 0
    requires x <= k * y
    ensures Quotient(x, y) <= k
  {
    var q := Quotient(x, y);
    assert q > k ==> (k + 1) * y <= q * y;
  }

  lemma QuotientMonotone(x: nat, x': nat, y: nat)
    requires y > 0 && x <= x'
    ensures Quotient(x, y) <= Quotient(x', y)
  {
    var q, q' := Quotient(x, y), Quotient(x', y);
    assert q' < q ==> (q' + 1) * y <= q * y;
  }

  /** `significand / 10^exponent`. */
  datatype UDecimal = UDecimal(significand: nat, exponent: nat)

  /** The product stops at the largest 128-bit value before it is scaled down. */
  function SaturatingMul(d: UDecimal, value: nat): nat {
    Quotient(SaturatedProduct(value, d.significand), Pow10(d.exponent))
  }

  function SaturatedProduct(a: nat, b: nat): nat {
    Min(a * b, U128_MAX)
  }

  /** The plain product, used for percentage fees. */
  function Mul(d: UDecimal, value: nat): nat {
    Quotient(value * d.significand, Pow10(d.exponent))
  }

  /** The share `a * b / c`, rounded up. */
  function MulDivCeil(a: nat, b: nat, c: nat): nat
    requires c > 0
  {
    QuotientUp(a * b, c)
  }

  function QuotientUp(x: nat, c: nat): (q: nat)
    requires c > 0
    ensures x <= q * c < x + c
  {
    Quotient(x + c - 1, c)
  }

  lemma CeilAtMost(x: nat, c: nat, k: nat)
    requires c > 0
    requires x <= k * c
    ensures QuotientUp(x, c) <= k
  {
    var r := QuotientUp(x, c);
    assert r > k ==> (k + 1) * c <= r * c;
  }

  /** The rounded-up share is the least integer not below the exact one, and it
      exceeds neither factor as long as the other is at most the divisor. */
  lemma MulDivCeilIsTheLeastUpperBound(a: nat, b: nat, c: nat)
    requires c > 0
    ensures a * b <= MulDivCeil(a, b, c) * c < a * b + c
    ensures b <= c ==> MulDivCeil(a, b, c) <= a
    ensures a <= c ==> MulDivCeil(a, b, c) <= b
  {
    if b <= c {
      assert a * b <= a * c;
      CeilAtMost(a * b, c, a);
    }
    if a <= c {
      assert a * b <= c * b;
      CeilAtMost(a * b, c, b);
    }
  }

  lemma TimesAtMost(x: nat, y: nat, z: nat)
    requires y <= z
    ensures x * y <= x * z
  {
  }

  /** A percentage below one hundred never takes more than the whole. */
  lemma ProperFractionKeepsRemainder(d: UDecimal, value: nat)
    requires d.significand < Pow10(d.exponent)
    ensures Mul(d, value) <= value
  {
    TimesAtMost(value, d.significand, Pow10(d.exponent));
    QuotientAtMost(value * d.significand, Pow10(d.exponent), value);
  }

  /** A rate of at most one never yields more than the principal, even when the
      product saturates. */
  lemma RateAtMostOne(d: UDecimal, value: nat)
    requires d.significand <= Pow10(d.exponent)
    ensures SaturatingMul(d, value) <= value
  {
    TimesAtMost(value, d.significand, Pow10(d.exponent));
    QuotientAtMost(SaturatedProduct(value, d.significand), Pow10(d.exponent), value);
  }

  lemma SaturatingMulMonotone(d: UDecimal, v: nat, v': nat)
    requires v <= v'
    ensures SaturatingMul(d, v) <= SaturatingMul(d, v')
  {
    TimesAtMost(d.significand, v, v');
    QuotientMonotone(SaturatedProduct(v, d.significand), SaturatedProduct(v', d.significand), Pow10(d.exponent));
  }
}

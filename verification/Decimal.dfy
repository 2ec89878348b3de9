/** 18-digit fixed-point decimals (`math/legacy_dec.go`): rounding, multiplication and division. */
module Decimal {

  /** One unit of the last place is `1 / PRECISION`. */
  const PRECISION: int := 1_000_000_000_000_000_000

  const HALF_PRECISION: int := 500_000_000_000_000_000

  /** `2^256`, the bound that both decimals and unsigned integers are checked against. */
  const TWO_256: int := 0x1_0000_0000_0000_0000_0000_0000_0000_0000_0000_0000_0000_0000_0000_0000_0000_0000

  const UPPER_LIMIT: int := TWO_256 * PRECISION - 1

  predicate InRange(i: int) {
    -UPPER_LIMIT <= i <= UPPER_LIMIT
  }

  function Abs(x: int): nat {
    if x < 0 then -x else x
  }

  /** `big.Int.Quo`: division that truncates towards zero. */
  function TruncQuo(a: int, b: int): int
    requires b != 0
  {
    var q := Abs(a) / Abs(b);
    if (a < 0) == (b < 0) then q else -q
  }

  // ---------------------------------------------------------------------------
  // What rounding means
  // ---------------------------------------------------------------------------

  /** `q` is the multiple of `PRECISION` nearest to `x`; a tie goes to the even multiple. */
  ghost predicate NearestEven(x: int, q: int) {
    && 2 * Abs(x - q * PRECISION) <= PRECISION
    && (2 * Abs(x - q * PRECISION) == PRECISION ==> q % 2 == 0)
  }

  /** The rule determines the result, so any two implementations of it agree. */
  lemma NearestEvenUnique(x: int, q: int, r: int)
    requires NearestEven(x, q) && NearestEven(x, r)
    ensures q == r
  {
  }

  /** Rounding is an odd function, which is why the code may strip the sign first. */
  lemma NearestEvenNeg(x: int, q: int)
    ensures NearestEven(x, q) <==> NearestEven(-x, -q)
  {
    assert -x - (-q) * PRECISION == -(x - q * PRECISION);
  }

  /** A multiple of `PRECISION` rounds to itself. */
  lemma NearestEvenExact(k: int, q: int)
    requires NearestEven(k * PRECISION, q)
    ensures q == k
  {
    NearestEvenUnique(k * PRECISION, k, q);
  }

  /** Rounding is monotone: the order of the inputs survives. */
  lemma NearestEvenMonotone(x: int, y: int, q: int, r: int)
    requires x <= y && NearestEven(x, q) && NearestEven(y, r)
    ensures q <= r
  {
  }

  // ---------------------------------------------------------------------------
  // The mutable big integer and the chop functions
  // ---------------------------------------------------------------------------

  class BigInt {
    var v: int

    constructor (n: int)
      ensures v == n
    {
      v := n;
    }
  }

  /** Bankers' rounding in place; the sign is removed, the magnitude chopped, the sign restored. */
  method ChopPrecisionAndRound(d: BigInt)
    modifies d
    ensures NearestEven(old(d.v), d.v)
    decreases d.v < 0
  {
    if d.v < 0 {
      d.v := -d.v;
      ChopPrecisionAndRound(d);
      ghost var chopped := d.v;
      d.v := -d.v;
      NearestEvenNeg(-old(d.v), chopped);
      return;
    }
    var rem := d.v % PRECISION;
    d.v := d.v / PRECISION;
    if rem == 0 {
      return;
    }
    if rem < HALF_PRECISION {
      return;
    } else if rem > HALF_PRECISION {
      d.v := d.v + 1;
    } else if d.v % 2 == 0 {
      return;
    } else {
      d.v := d.v + 1;
    }
  }

  /** Drops the digits after the last place: rounds towards zero and keeps the sign. */
  method ChopPrecisionAndTruncate(d: BigInt)
    modifies d
    ensures (old(d.v) >= 0 ==> d.v >= 0) && (old(d.v) <= 0 ==> d.v <= 0)
    ensures Abs(d.v) * PRECISION <= Abs(old(d.v)) < (Abs(d.v) + 1) * PRECISION
  {
    d.v := TruncQuo(d.v, PRECISION);
  }

  /** Rounds towards positive infinity: the least multiple that is not below the input. */
  method ChopPrecisionAndRoundUp(d: BigInt)
    modifies d
    ensures d.v * PRECISION >= old(d.v) > (d.v - 1) * PRECISION
  {
    if d.v < 0 {
      d.v := -d.v;
      ChopPrecisionAndTruncate(d);
      d.v := -d.v;
      return;
    }
    var rem := d.v % PRECISION;
    d.v := d.v / PRECISION;
    if rem != 0 {
      d.v := d.v + 1;
    }
  }

  // ---------------------------------------------------------------------------
  // LegacyDec: a mutable decimal; a method that would panic returns false
  // ---------------------------------------------------------------------------

  class LegacyDec {
    const i: BigInt

    constructor (n: int)
      ensures fresh(i) && i.v == n
    {
      i := new BigInt(n);
    }

    /** Multiplication with bankers' rounding. `d2` may be this very decimal. */
    method MulMut(d2: LegacyDec) returns (ok: bool)
      modifies i
      ensures NearestEven(old(i.v) * old(d2.i.v), i.v)
      ensures ok <==> InRange(i.v)
    {
      i.v := i.v * d2.i.v;
      ChopPrecisionAndRound(i);
      ok := InRange(i.v);
    }

    method MulTruncateMut(d2: LegacyDec) returns (ok: bool)
      modifies i
      ensures i.v == TruncQuo(old(i.v) * old(d2.i.v), PRECISION)
      ensures ok <==> InRange(i.v)
    {
      i.v := i.v * d2.i.v;
      ChopPrecisionAndTruncate(i);
      ok := InRange(i.v);
    }

    method MulRoundUpMut(d2: LegacyDec) returns (ok: bool)
      modifies i
      ensures i.v * PRECISION >= old(i.v) * old(d2.i.v) > (i.v - 1) * PRECISION
      ensures ok <==> InRange(i.v)
    {
      i.v := i.v * d2.i.v;
      ChopPrecisionAndRoundUp(i);
      ok := InRange(i.v);
    }

    /**
     * Two roundings: the scaled quotient is truncated before the last digits are rounded.
     * The dividend is scaled before the divisor is read, so dividing a decimal by itself in
     * place yields zero instead of one.
     */
    method QuoMut(d2: LegacyDec) returns (ok: bool)
      modifies i
      ensures old(d2.i.v) == 0 ==> !ok
      ensures old(d2.i.v) != 0 && d2.i != i ==>
                NearestEven(TruncQuo(old(i.v) * PRECISION * PRECISION, old(d2.i.v)), i.v)
      ensures old(d2.i.v) != 0 && d2.i == i ==> i.v == 0
      ensures old(d2.i.v) != 0 ==> (ok <==> InRange(i.v))
    {
      i.v := i.v * PRECISION * PRECISION;
      if d2.i.v == 0 {
        return false;
      }
      i.v := TruncQuo(i.v, d2.i.v);
      ChopPrecisionAndRound(i);
      ok := InRange(i.v);
    }

    method QuoTruncateMut(d2: LegacyDec) returns (ok: bool)
      modifies i
      ensures old(d2.i.v) == 0 ==> !ok
      ensures old(d2.i.v) != 0 && d2.i != i ==> i.v == TruncQuo(old(i.v) * PRECISION, old(d2.i.v))
      ensures old(d2.i.v) != 0 && d2.i == i ==> i.v == 1
      ensures old(d2.i.v) != 0 ==> (ok <==> InRange(i.v))
    {
      i.v := i.v * PRECISION;
      if d2.i.v == 0 {
        return false;
      }
      i.v := TruncQuo(i.v, d2.i.v);
      ok := InRange(i.v);
    }

    /** Reads the sign of the quotient, not of the dividend: see `QuoRoundUpIsCeiling`. */
    method QuoRoundupMut(d2: LegacyDec) returns (ok: bool)
      modifies i
      ensures old(d2.i.v) == 0 ==> !ok
      ensures old(d2.i.v) != 0 && d2.i != i ==> i.v == QuoRoundUp(old(i.v) * PRECISION, old(d2.i.v))
      ensures old(d2.i.v) != 0 && d2.i == i ==> i.v == 1
      ensures old(d2.i.v) != 0 ==> (ok <==> InRange(i.v))
    {
      i.v := i.v * PRECISION;
      if d2.i.v == 0 {
        return false;
      }
      var quo := TruncQuo(i.v, d2.i.v);
      var rem := i.v - quo * d2.i.v;
      i.v := quo;
      if (rem > 0 && (i.v < 0) == (d2.i.v < 0)) || (rem < 0 && (i.v < 0) != (d2.i.v < 0)) {
        i.v := i.v + 1;
      }
      ok := InRange(i.v);
    }
  }

  // ---------------------------------------------------------------------------
  // How the quotients relate
  // ---------------------------------------------------------------------------

  function QuoRoundUp(a: int, b: int): int
    requires b != 0
  {
    var quo := TruncQuo(a, b);
    var rem := a - quo * b;
    if (rem > 0 && (quo < 0) == (b < 0)) || (rem < 0 && (quo < 0) != (b < 0)) then quo + 1 else quo
  }

  /** `q` is the least integer that is not below the exact quotient `a / b`. */
  ghost predicate IsCeiling(a: int, b: int, q: int)
    requires b != 0
  {
    if b > 0 then (q - 1) * b < a <= q * b else (q - 1) * b > a >= q * b
  }

  /** Truncation towards zero has already rounded such a quotient up; the code adds one more. */
  predicate RoundedTwice(a: int, b: int)
    requires b != 0
  {
    && (a < 0) != (b < 0)
    && Abs(a) > Abs(b)
    && Abs(a) % Abs(b) != 0
  }

  lemma MagnitudeQuoRem(a: int, b: int)
    requires b != 0
    ensures Abs(a) == (Abs(a) / Abs(b)) * Abs(b) + Abs(a) % Abs(b)
    ensures Abs(a) / Abs(b) == 0 <==> Abs(a) < Abs(b)
    ensures Abs(a) == Abs(b) ==> Abs(a) % Abs(b) == 0
  {
    var q, r, m := Abs(a) / Abs(b), Abs(a) % Abs(b), Abs(b);
    assert q >= 1 ==> q * m >= m;
    assert q >= 2 ==> q * m >= 2 * m;
  }

  /**
   * `QuoRoundUp` is the ceiling exactly when the operands do not have opposite signs, the
   * division is exact, or the quotient is below one in magnitude. Otherwise it is one too big.
   */
  lemma QuoRoundUpIsCeiling(a: int, b: int)
    requires b != 0
    ensures IsCeiling(a, b, QuoRoundUp(a, b)) <==> !RoundedTwice(a, b)
    ensures RoundedTwice(a, b) ==> IsCeiling(a, b, QuoRoundUp(a, b) - 1)
  {
    MagnitudeQuoRem(a, b);
    var q, r, m := Abs(a) / Abs(b), Abs(a) % Abs(b), Abs(b);
    if (a < 0) == (b < 0) {
      assert TruncQuo(a, b) == q;
      SignedProducts(q, m);
      assert b < 0 ==> q * b == -(q * m) && (q - 1) * b == m - q * m && (q + 1) * b == -(q * m) - m;
    } else {
      assert TruncQuo(a, b) == -q;
      SignedProducts(q, m);
      assert b < 0 ==> (-q) * b == q * m && (-q - 1) * b == q * m + m && (-q + 1) * b == q * m - m;
    }
  }

  lemma SignedProducts(q: int, m: int)
    ensures (q + 1) * m == q * m + m && (q - 1) * m == q * m - m
    ensures q * -m == -(q * m) && (q - 1) * -m == m - q * m && (q + 1) * -m == -(q * m) - m
    ensures (-q) * m == -(q * m) && (-q - 1) * m == -(q * m) - m && (-q + 1) * m == m - q * m
    ensures (-q) * -m == q * m && (-q - 1) * -m == q * m + m && (-q + 1) * -m == q * m - m
  {
  }

  /**
   * For a non-negative dividend and a positive divisor the three quotients are ordered and at
   * most one unit apart, although `Quo` rounds twice.
   */
  lemma QuotientsOrdered(x: int, y: int, quo: int)
    requires x >= 0 && y > 0
    requires NearestEven(TruncQuo(x * PRECISION * PRECISION, y), quo)
    ensures TruncQuo(x * PRECISION, y) <= quo
    ensures quo <= QuoRoundUp(x * PRECISION, y) <= TruncQuo(x * PRECISION, y) + 1
  {
    var a := x * PRECISION;
    var t := a / y;
    var r := a % y;
    assert a == t * y + r;
    var fine := (a * PRECISION) / y;
    FinerQuotient(a, y);
    assert t * PRECISION <= fine < t * PRECISION + PRECISION;
    if r == 0 {
      assert fine == t * PRECISION;
    }
    assert TruncQuo(a, y) == t && QuoRoundUp(a, y) == if r > 0 then t + 1 else t;
  }

  /** Scaling before dividing keeps the integer part and fills in 18 more digits. */
  lemma FinerQuotient(a: nat, y: nat)
    requires y > 0
    ensures (a / y) * PRECISION <= (a * PRECISION) / y < (a / y) * PRECISION + PRECISION
    ensures a % y == 0 ==> (a * PRECISION) / y == (a / y) * PRECISION
  {
    var t, r := a / y, a % y;
    assert a * PRECISION == t * PRECISION * y + r * PRECISION by {
      assert a == t * y + r;
      assert (t * y + r) * PRECISION == t * y * PRECISION + r * PRECISION;
      assert t * y * PRECISION == t * PRECISION * y;
    }
    QuotientBounds(a * PRECISION, y, t * PRECISION, r * PRECISION);
    assert r * PRECISION < y * PRECISION;
  }

  lemma QuotientBounds(n: nat, y: nat, k: nat, rest: nat)
    requires y > 0 && n == k * y + rest && rest < y * PRECISION
    ensures k <= n / y < k + PRECISION
    ensures rest == 0 ==> n / y == k
  {
    var q := n / y;
    assert n == q * y + n % y;
    assert q < k ==> (q + 1) * y <= k * y;
    assert q >= k + PRECISION ==> q * y >= (k + PRECISION) * y;
    assert q > k ==> q * y >= (k + 1) * y;
  }

  /** Bankers' rounding does not see the order of the factors. */
  lemma MulCommutes(x: int, y: int, xy: int, yx: int)
    requires NearestEven(x * y, xy) && NearestEven(y * x, yx)
    ensures xy == yx
  {
    assert x * y == y * x;
    NearestEvenUnique(x * y, xy, yx);
  }
}

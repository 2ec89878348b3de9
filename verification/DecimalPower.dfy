/** Square-and-multiply powers of decimals: `LegacyDec.PowerMut`. */
module DecimalPower {
  import opened Decimal
  import opened Hiding
  import opened PowerErrors

  function Pow(k: int, n: nat): int {
    if n == 0 then 1 else k * Pow(k, n - 1)
  }

  lemma {:induction false} PowAdd(k: int, a: nat, b: nat)
    ensures Pow(k, a + b) == Pow(k, a) * Pow(k, b)
  {
    if a > 0 {
      PowAdd(k, a - 1, b);
      assert k * (Pow(k, a - 1) * Pow(k, b)) == (k * Pow(k, a - 1)) * Pow(k, b);
    }
  }

  // ---------------------------------------------------------------------------
  // Decimals as rational numbers
  // ---------------------------------------------------------------------------

  ghost const SCALE: real := PRECISION as real

  /** The decimal `d` as a rational number. */
  ghost function Value(d: int): real {
    d as real / SCALE
  }

  ghost const HALF_UNIT: real := 0.5 / SCALE

  lemma RoundsToHalfUnit(u: int, v: int, w: int)
    requires NearestEven(u * v, w)
    ensures RoundsWithin(Value(u), Value(v), Value(w), HALF_UNIT)
  {
    ScaledRounds(u, v, w, PRECISION, w * PRECISION - u * v);
  }

  lemma UnitRange(u: int, v: int, w: int)
    requires 0 <= u <= PRECISION && 0 <= v <= PRECISION && NearestEven(u * v, w)
    ensures 0 <= w <= PRECISION
  {
    ProductBound(u, v);
    assert NearestEven(0, 0) && NearestEven(PRECISION * PRECISION, PRECISION);
    NearestEvenMonotone(0, u * v, 0, w);
    NearestEvenMonotone(u * v, PRECISION * PRECISION, w, PRECISION);
  }

  lemma ProductBound(u: int, v: int)
    requires 0 <= u <= PRECISION && 0 <= v <= PRECISION
    ensures 0 <= u * v <= PRECISION * PRECISION
  {
    assert (PRECISION - u) * v >= 0;
    assert PRECISION * (PRECISION - v) >= 0;
  }

  /** The product of decimals between minus one and one is one again. */
  lemma UnitProduct(u: int, v: int, w: int)
    requires Abs(u) <= PRECISION && Abs(v) <= PRECISION && NearestEven(u * v, w)
    ensures Abs(w) <= PRECISION
  {
    var m := Abs(u) * Abs(v);
    MulAbs(u, v);
    if u * v < 0 {
      NearestEvenNeg(u * v, w);
      UnitRange(Abs(u), Abs(v), -w);
    } else {
      UnitRange(Abs(u), Abs(v), w);
    }
  }

  lemma AbsValue(d: int)
    ensures RealAbs(Value(d)) <= 1.0 <==> Abs(d) <= PRECISION
  {
  }

  /** Integer-valued decimals multiply without any rounding. */
  lemma {:induction false} ProductExact(k: int, a: nat, b: nat, w: int)
    requires NearestEven((Pow(k, a) * PRECISION) * (Pow(k, b) * PRECISION), w)
    ensures w == Pow(k, a + b) * PRECISION
  {
    PowAdd(k, a, b);
    assert (Pow(k, a) * PRECISION) * (Pow(k, b) * PRECISION)
        == (Pow(k, a) * Pow(k, b) * PRECISION) * PRECISION;
    NearestEvenExact(Pow(k, a) * Pow(k, b) * PRECISION, w);
  }

  lemma MulGrows(q: nat, b: nat)
    requires b >= 1
    ensures q * b >= q
  {
    assert q * b == q + q * (b - 1);
  }

  lemma MulGrowsTwice(q: nat, b: nat)
    requires b >= 2
    ensures q * b >= q + q
  {
    assert q * b == q + q + q * (b - 2);
  }

  // ---------------------------------------------------------------------------
  // PowerMut
  // ---------------------------------------------------------------------------

  /**
   * What a decimal met while computing a power of `base` stands for: the `n`-th power, exactly if the base is an
   * integer, and otherwise up to an error.
   */
  ghost predicate Tracks(v: int, base: int, n: nat) {
    && (base % PRECISION == 0 ==> v == Pow(base / PRECISION, n) * PRECISION)
    && (0 <= base <= PRECISION ==> 0 <= v <= PRECISION)
    && NearPower(Value(v), Value(base), HALF_UNIT, n)
  }

  lemma TracksOne(base: int)
    ensures Tracks(PRECISION, base, 0) && Tracks(base, base, 1)
  {
    var k := base / PRECISION;
    assert Pow(k, 1) == k * Pow(k, 0) == k;
    assert Value(PRECISION) == 1.0;
    NearPowerStart(Value(base), HALF_UNIT);
  }

  lemma NearProduct(u: int, v: int, w: int, base: int, a: nat, b: nat)
    requires NearPower(Value(u), Value(base), HALF_UNIT, a) && NearPower(Value(v), Value(base), HALF_UNIT, b)
    requires NearestEven(u * v, w)
    ensures NearPower(Value(w), Value(base), HALF_UNIT, a + b)
  {
    var x := Value(base);
    NearPowerParts(Value(u), x, HALF_UNIT, a);
    NearPowerParts(Value(v), x, HALF_UNIT, b);
    RoundsToHalfUnit(u, v, w);
    AbsValue(u);
    AbsValue(v);
    AbsValue(w);
    if a == 0 {
      WholeValue(u);
      NearestEvenExact(v, w);
    }
    if b == 0 {
      WholeValue(v);
      NearestEvenExact(u, w);
    }
    if RealAbs(x) <= 1.0 {
      UnitProduct(u, v, w);
    }
    NearPowerProduct(Value(u), Value(v), Value(w), x, HALF_UNIT, a, b);
  }

  lemma WholeValue(u: int)
    requires Value(u) == 1.0
    ensures u == PRECISION
  {
  }

  lemma {:induction false} TracksProduct(u: int, v: int, w: int, base: int, a: nat, b: nat)
    requires Tracks(u, base, a) && Tracks(v, base, b) && NearestEven(u * v, w)
    ensures Tracks(w, base, a + b)
  {
    if base % PRECISION == 0 {
      ProductExact(base / PRECISION, a, b, w);
    }
    if 0 <= base <= PRECISION {
      UnitRange(u, v, w);
    }
    NearProduct(u, v, w, base, a, b);
  }

  /** No decimal on the way to the power leaves the range. */
  ghost predicate Fits(base: int, power: nat) {
    forall z: int {:trigger Unfold(z)} :: Guard(z) ==> exists w: int {:trigger Fold(w)} ::
      && Fold(w)
      && forall v: int, n: nat :: NearPower(Value(v), Value(base), HALF_UNIT, n) && n <= power ==> InRange(v)
  }

  lemma FitsOne(v: int, base: int, n: nat, power: nat, top: real)
    requires NearPower(Value(v), Value(base), HALF_UNIT, n) && n <= power
    requires top == RealPow(Growth(Value(base), HALF_UNIT), power) && top * SCALE <= UPPER_LIMIT as real
    ensures InRange(v)
  {
    var g := Growth(Value(base), HALF_UNIT);
    NearPowerBelow(Value(v), Value(base), HALF_UNIT, n);
    PowerUp(g, n, power);
    RealMulMonotone(RealAbs(Value(v)), top, SCALE);
    assert RealAbs(Value(v)) * SCALE == Abs(v) as real;
  }

  /** All fit if the bound of the last power does. */
  lemma FitsAll(base: int, power: nat, top: real)
    requires top == RealPow(Growth(Value(base), HALF_UNIT), power) && top * SCALE <= UPPER_LIMIT as real
    ensures Fits(base, power)
  {
    forall v: int, n: nat | NearPower(Value(v), Value(base), HALF_UNIT, n) && n <= power ensures InRange(v) {
      FitsOne(v, base, n, power, top);
    }
    assert Unfold(0) && Fold(0);
  }

  lemma UnitFits(base: int, power: nat)
    requires 0 <= base <= PRECISION
    ensures Fits(base, power)
  {
    AbsValue(base);
    PowOfOne(power);
    FitsAll(base, power, 1.0);
  }

  lemma InRangeOnTheWay(v: int, base: int, n: nat, power: nat)
    requires NearPower(Value(v), Value(base), HALF_UNIT, n) && n <= power && Fits(base, power)
    ensures InRange(v)
  {
    assert Unfold(0);
  }

  lemma MulAbs(a: int, b: int)
    ensures Abs(a * b) == Abs(a) * Abs(b)
  {
  }

  /** Powers of an integer do not shrink, except to zero. */
  lemma {:induction false} PowNotSmaller(k: int, n: nat, m: nat)
    requires n <= m
    ensures k == 0 || 1 <= Abs(Pow(k, n)) <= Abs(Pow(k, m))
    decreases m
  {
    if m > 0 && k != 0 {
      PowNotSmaller(k, if n < m then n else m - 1, m - 1);
      MulAbs(k, Pow(k, m - 1));
      MulGrows(Abs(Pow(k, m - 1)), Abs(k));
    }
  }

  /** If a power is in range, so are the lower ones. */
  lemma {:induction false} LowerPowersInRange(k: int, n: nat, m: nat)
    requires n <= m && InRange(Pow(k, m) * PRECISION)
    ensures InRange(Pow(k, n) * PRECISION)
  {
    if k == 0 {
      assert Pow(k, n) == if n == 0 then 1 else 0;
    } else {
      PowNotSmaller(k, n, m);
    }
  }

  /** A power of an integer that was computed on the way: out of range only if the last one is. */
  lemma {:induction false} OnTheWay(v: int, base: int, n: nat, power: nat)
    requires Tracks(v, base, n) && n <= power
    ensures base % PRECISION == 0 && !InRange(v) ==> !InRange(Pow(base / PRECISION, power) * PRECISION)
    ensures Fits(base, power) ==> InRange(v)
  {
    if Fits(base, power) {
      InRangeOnTheWay(v, base, n, power);
    }
    if base % PRECISION == 0 && InRange(Pow(base / PRECISION, power) * PRECISION) {
      LowerPowersInRange(base / PRECISION, n, power);
    }
  }

  /** Moving one factor aside when the exponent is odd keeps the total exponent. */
  lemma HalveExponent(t: nat, a: nat, i: nat, power: nat)
    requires t + a * i == power
    ensures (if i % 2 != 0 then t + a else t) + (a + a) * (i / 2) == power
  {
    var h := i / 2;
    assert a * i == a * (h + h + i % 2) == a * h + a * h + a * (i % 2);
    assert (a + a) * h == a * h + a * h;
  }

  /**
   * Raises `d` to a power by squaring. An integer-valued decimal gives the exact power. Any other is off by at most
   * half a unit for each of the `power - 1` multiplications that repeated multiplication would take, where each
   * error grows with the factors that follow it. It does not overflow as long as the bound of the power fits; a
   * decimal in [0, 1] never overflows and stays in [0, 1].
   */
  method PowerMut(d: LegacyDec, power: nat) returns (ok: bool)
    modifies d.i
    ensures ok ==> Tracks(d.i.v, old(d.i.v), power)
    ensures ok ==>
              var x, g := Value(old(d.i.v)), Growth(Value(old(d.i.v)), HALF_UNIT);
              RealAbs(Value(d.i.v) - RealPow(x, power)) <= Error(g, HALF_UNIT, power)
    ensures RealPow(Growth(Value(old(d.i.v)), HALF_UNIT), power) * SCALE <= UPPER_LIMIT as real ==> ok
    ensures 0 <= old(d.i.v) <= PRECISION ==> ok
    ensures old(d.i.v) % PRECISION == 0 ==> (ok <==> InRange(Pow(old(d.i.v) / PRECISION, power) * PRECISION))
  {
    ok := PowerBySquaring(d, power);
    if RealPow(Growth(Value(old(d.i.v)), HALF_UNIT), power) * SCALE <= UPPER_LIMIT as real {
      FitsAll(old(d.i.v), power, RealPow(Growth(Value(old(d.i.v)), HALF_UNIT), power));
    }
    if 0 <= old(d.i.v) <= PRECISION {
      UnitFits(old(d.i.v), power);
    }
    if ok {
      NearPowerParts(Value(d.i.v), Value(old(d.i.v)), HALF_UNIT, power);
    }
  }

  method PowerBySquaring(d: LegacyDec, power: nat) returns (ok: bool)
    modifies d.i
    ensures ok ==> Tracks(d.i.v, old(d.i.v), power)
    ensures Fits(old(d.i.v), power) ==> ok
    ensures old(d.i.v) % PRECISION == 0 ==> (ok <==> InRange(Pow(old(d.i.v) / PRECISION, power) * PRECISION))
  {
    ghost var base := d.i.v;
    TracksOne(base);
    if power == 0 {
      d.i.v := PRECISION;
      return true;
    }
    var tmp := new LegacyDec(PRECISION);
    var i := power;
    // The decimal stands for base^a and tmp for base^t.
    ghost var a: nat, t: nat := 1, 0;
    while i > 1
      invariant i >= 1 && t + a * i == power
      invariant fresh(tmp.i)
      invariant Tracks(d.i.v, base, a) && Tracks(tmp.i.v, base, t)
    {
      HalveExponent(t, a, i, power);
      MulGrowsTwice(a, i);
      ghost var u, v := d.i.v, tmp.i.v;
      if i % 2 != 0 {
        ok := tmp.MulMut(d);
        TracksProduct(v, u, tmp.i.v, base, t, a);
        OnTheWay(tmp.i.v, base, t + a, power);
        if !ok {
          return;
        }
        t := t + a;
      }
      i := i / 2;
      ok := d.MulMut(d);
      TracksProduct(u, u, d.i.v, base, a, a);
      OnTheWay(d.i.v, base, a + a, power);
      if !ok {
        return;
      }
      a := a + a;
    }
    ghost var u, v := d.i.v, tmp.i.v;
    ok := d.MulMut(tmp);
    TracksProduct(u, v, d.i.v, base, a, t);
    OnTheWay(d.i.v, base, a + t, power);
  }
}

/** How far rounded powers are off: real numbers, each product of which is rounded to within half a unit. */
module PowerErrors {
  import opened Hiding

  ghost function RealAbs(x: real): real {
    if x < 0.0 then -x else x
  }

  ghost function RealPow(x: real, n: nat): real {
    if n == 0 then 1.0 else x * RealPow(x, n - 1)
  }

  // ---------------------------------------------------------------------------
  // Products of real numbers
  // ---------------------------------------------------------------------------

  lemma RealMulNonNegative(x: real, y: real)
    requires 0.0 <= x && 0.0 <= y
    ensures 0.0 <= x * y
  {
  }

  lemma RealMulMonotone(x: real, y: real, z: real)
    requires x <= y && 0.0 <= z
    ensures x * z <= y * z
  {
    RealMulNonNegative(y - x, z);
    assert (y - x) * z == y * z - x * z;
  }

  lemma RealMulStrict(x: real, y: real, z: real)
    requires x < y && z > 0.0
    ensures x * z < y * z
  {
    assert (y - x) * z > 0.0;
    assert (y - x) * z == y * z - x * z;
  }

  lemma AbsOfProduct(x: real, y: real)
    ensures RealAbs(x * y) == RealAbs(x) * RealAbs(y)
  {
    RealMulNonNegative(RealAbs(x), RealAbs(y));
    assert -x * y == -(x * y) && x * -y == -(x * y) && -x * -y == x * y;
  }

  lemma AbsProductBelow(x: real, y: real, a: real, c: real)
    requires RealAbs(x) <= a && RealAbs(y) <= c
    ensures RealAbs(x * y) <= a * c
  {
    calc {
      RealAbs(x * y);
    == { AbsOfProduct(x, y); }
      RealAbs(x) * RealAbs(y);
    <= { RealMulMonotone(RealAbs(x), a, RealAbs(y)); }
      a * RealAbs(y);
    ==
      RealAbs(y) * a;
    <= { RealMulMonotone(RealAbs(y), c, a); }
      c * a;
    ==
      a * c;
    }
  }

  ghost predicate IsProduct(r: real, p: real, q: real) {
    forall z: int {:trigger Unfold(z)} :: Guard(z) ==> exists w: int {:trigger Fold(w)} :: Fold(w) && r == p * q
  }

  /** `w` misses the product of `u` and `v` by at most `h`. */
  ghost predicate RoundsWithin(u: real, v: real, w: real, h: real) {
    forall z: int {:trigger Unfold(z)} :: Guard(z) ==> exists y: int {:trigger Fold(y)} ::
      Fold(y) && RealAbs(w - u * v) <= h
  }

  lemma RoundsParts(u: real, v: real, w: real, h: real) returns (uv: real)
    requires RoundsWithin(u, v, w, h)
    ensures IsProduct(uv, u, v) && RealAbs(w - uv) <= h
  {
    uv := u * v;
    assert Unfold(0) && Fold(0);
  }

  lemma ProductBelow(x: real, y: real, a: real, c: real) returns (xy: real, ac: real)
    requires RealAbs(x) <= a && RealAbs(y) <= c
    ensures IsProduct(xy, x, y) && IsProduct(ac, a, c) && RealAbs(xy) <= ac
  {
    xy, ac := x * y, a * c;
    AbsProductBelow(x, y, a, c);
    assert Unfold(0) && Fold(0);
  }

  lemma SameProduct(r: real, s: real, p: real, q: real)
    requires IsProduct(r, p, q) && IsProduct(s, p, q)
    ensures r == s
  {
    assert Unfold(0);
  }

  // ---------------------------------------------------------------------------
  // Powers
  // ---------------------------------------------------------------------------

  lemma {:induction false} RealPowAdd(x: real, a: nat, b: nat)
    ensures RealPow(x, a + b) == RealPow(x, a) * RealPow(x, b)
  {
    if a > 0 {
      RealPowAdd(x, a - 1, b);
      assert x * (RealPow(x, a - 1) * RealPow(x, b)) == (x * RealPow(x, a - 1)) * RealPow(x, b);
    }
  }

  lemma {:induction false} PowIsProduct(x: real, a: nat, b: nat)
    ensures IsProduct(RealPow(x, a + b), RealPow(x, a), RealPow(x, b))
  {
    RealPowAdd(x, a, b);
    assert Unfold(0) && Fold(0);
  }

  lemma {:induction false} PowAtLeastOne(g: real, n: nat)
    requires g >= 1.0
    ensures RealPow(g, n) >= 1.0 && (n >= 1 ==> RealPow(g, n) >= g)
  {
    if n > 0 {
      PowAtLeastOne(g, n - 1);
      RealMulMonotone(1.0, RealPow(g, n - 1), g);
      assert RealPow(g, n - 1) * g == g * RealPow(g, n - 1);
    }
  }

  /** Higher powers of a number that is at least one are larger. */
  lemma {:induction false} PowerUp(g: real, n: nat, top: nat)
    requires g >= 1.0 && n <= top
    ensures 1.0 <= RealPow(g, n) <= RealPow(g, top)
  {
    PowAtLeastOne(g, n);
    PowAtLeastOne(g, top - n);
    RealPowAdd(g, top - n, n);
    RealMulMonotone(1.0, RealPow(g, top - n), RealPow(g, n));
  }

  lemma {:induction false} PowBelow(x: real, g: real, n: nat)
    requires RealAbs(x) <= g
    ensures RealAbs(RealPow(x, n)) <= RealPow(g, n)
  {
    if n > 0 {
      PowBelow(x, g, n - 1);
      AbsProductBelow(x, RealPow(x, n - 1), g, RealPow(g, n - 1));
    }
  }

  // ---------------------------------------------------------------------------
  // Errors
  // ---------------------------------------------------------------------------

  /** What one more factor multiplies errors by: nothing up to one, else hardly more than the factor. */
  ghost function Growth(x: real, h: real): real {
    if RealAbs(x) <= 1.0 then 1.0 else RealAbs(x) + h
  }

  /** Half a unit for each product of `n` factors, each of which grows with the factors that follow. */
  ghost function Error(g: real, h: real, n: nat): real {
    if n <= 1 then 0.0 else (n - 1) as real * (h * RealPow(g, n - 2))
  }

  lemma {:induction false} PowOfOne(n: nat)
    ensures RealPow(1.0, n) == 1.0
  {
    if n > 0 {
      PowOfOne(n - 1);
    }
  }

  lemma TimesOne(k: real, h: real, r: real)
    requires r == 1.0
    ensures k * (h * r) == k * h
  {
  }

  /** Powers of numbers up to one are off by half a unit for each product. */
  lemma UnitError(h: real, n: nat)
    ensures Error(1.0, h, n) == if n <= 1 then 0.0 else (n - 1) as real * h
  {
    if n >= 2 {
      PowOfOne(n - 2);
      TimesOne((n - 1) as real, h, RealPow(1.0, n - 2));
    }
  }

  /** The error of a product of factors bounded by `a` and `c` with the errors `e` and `f`. */
  ghost predicate AddsUp(h: real, a: real, f: real, c: real, e: real, ef: real) {
    forall z: int {:trigger Unfold(z)} :: Guard(z) ==> exists y: int {:trigger Fold(y)} ::
      Fold(y) && h + a * f + c * e <= ef
  }

  lemma AddsUpParts(h: real, a: real, f: real, c: real, e: real, ef: real, af: real, ce: real)
    requires AddsUp(h, a, f, c, e, ef) && IsProduct(af, a, f) && IsProduct(ce, c, e)
    ensures h + af + ce <= ef
  {
    assert Unfold(0);
  }

  lemma TwoDifferences(u: real, v: real, p: real, q: real, uv: real, pq: real, x: real, y: real)
    requires IsProduct(uv, u, v) && IsProduct(pq, p, q) && IsProduct(x, u, v - q) && IsProduct(y, q, u - p)
    ensures x + y == uv - pq
  {
    assert Unfold(0);
  }

  /** Errors of factors add up, each multiplied by a bound of the other factor. */
  lemma ErrorOfProduct(u: real, v: real, w: real, p: real, q: real, pq: real, a: real, c: real, e: real, f: real,
                       ef: real, h: real)
    requires RoundsWithin(u, v, w, h) && IsProduct(pq, p, q) && AddsUp(h, a, f, c, e, ef)
    requires RealAbs(u) <= a && RealAbs(q) <= c && RealAbs(u - p) <= e && RealAbs(v - q) <= f
    ensures RealAbs(w - pq) <= ef
  {
    var uv := RoundsParts(u, v, w, h);
    var x, af := ProductBelow(u, v - q, a, f);
    var y, ce := ProductBelow(q, u - p, c, e);
    TwoDifferences(u, v, p, q, uv, pq, x, y);
    AddsUpParts(h, a, f, c, e, ef, af, ce);
  }

  lemma ErrorTimesPower(g: real, h: real, a: nat, c: nat)
    requires a >= 1 && c >= 1
    ensures RealPow(g, a) * Error(g, h, c) == (c - 1) as real * (h * RealPow(g, a + c - 2))
  {
    if c >= 2 {
      var k, p, q := (c - 1) as real, RealPow(g, a), RealPow(g, c - 2);
      RealPowAdd(g, a, c - 2);
      assert p * (k * (h * q)) == k * (h * (p * q)) by { Reorder(p, k, h, q); }
    }
  }

  lemma Reorder(p: real, k: real, h: real, q: real)
    ensures p * (k * (h * q)) == k * (h * (p * q))
  {
    var r := h * q;
    assert p * (k * r) == k * (p * r);
    assert p * r == h * (p * q);
  }

  lemma ErrorSum(g: real, h: real, a: nat, c: nat)
    requires g >= 1.0 && h >= 0.0 && a >= 1 && c >= 1
    ensures AddsUp(h, RealPow(g, a), Error(g, h, c), RealPow(g, c), Error(g, h, a), Error(g, h, a + c))
  {
    var p, k, l := RealPow(g, a + c - 2), (c - 1) as real, (a - 1) as real;
    var e := h * p;
    PowAtLeastOne(g, a + c - 2);
    RealMulMonotone(1.0, p, h);
    ErrorTimesPower(g, h, a, c);
    ErrorTimesPower(g, h, c, a);
    assert RealPow(g, a) * Error(g, h, c) == k * e && RealPow(g, c) * Error(g, h, a) == l * e;
    assert Error(g, h, a + c) == (1.0 + k + l) * e;
    ThreeTerms(h, e, k, l);
    assert Unfold(0) && Fold(0);
  }

  lemma ThreeTerms(h: real, e: real, k: real, l: real)
    requires h <= e
    ensures h + k * e + l * e <= (1.0 + k + l) * e
  {
    assert (1.0 + k + l) * e == e + k * e + l * e;
  }

  /** A rounded product stays half a unit below the product of the bounds of its factors. */
  lemma CapOfProduct(u: real, v: real, w: real, a: real, c: real, ac: real, h: real)
    requires RoundsWithin(u, v, w, h) && IsProduct(ac, a, c) && RealAbs(u) <= a - h && RealAbs(v) <= c - h
    requires h >= 0.0 && a >= 1.0 + h && c >= 1.0 + h
    ensures RealAbs(w) <= ac - h
  {
    var uv := RoundsParts(u, v, w, h);
    var uv', caps := ProductBelow(u, v, a - h, c - h);
    SameProduct(uv, uv', u, v);
    CapsMultiply(a, c, h, ac, caps);
  }

  lemma CapsMultiply(a: real, c: real, h: real, ac: real, caps: real)
    requires h >= 0.0 && a >= 1.0 + h && c >= 1.0 + h && IsProduct(ac, a, c) && IsProduct(caps, a - h, c - h)
    ensures caps <= ac - 2.0 * h
  {
    assert Unfold(0);
    var sum := a + c - h;
    assert (a - h) * (c - h) == a * c - sum * h;
    RealMulMonotone(2.0, sum, h);
  }

  // ---------------------------------------------------------------------------
  // What a number that was computed by rounded products stands for
  // ---------------------------------------------------------------------------

  /** What the number does not exceed. */
  ghost function Cap(x: real, h: real, n: nat): real {
    if RealAbs(x) <= 1.0 || n == 0 then 1.0 else RealPow(Growth(x, h), n) - h
  }

  /** `v` is close to the n-th power of `x`. */
  ghost predicate NearPower(v: real, x: real, h: real, n: nat) {
    forall z: int {:trigger Unfold(z)} :: Guard(z) ==> exists w: int {:trigger Fold(w)} ::
      && Fold(w)
      && (n == 0 ==> v == 1.0) && RealAbs(v) <= Cap(x, h, n)
      && RealAbs(v - RealPow(x, n)) <= Error(Growth(x, h), h, n)
  }

  lemma NearPowerParts(v: real, x: real, h: real, n: nat)
    requires NearPower(v, x, h, n)
    ensures (n == 0 ==> v == 1.0) && RealAbs(v) <= Cap(x, h, n)
    ensures RealAbs(v - RealPow(x, n)) <= Error(Growth(x, h), h, n)
  {
    assert Unfold(0);
  }

  lemma NearPowerWhole(v: real, x: real, h: real, n: nat)
    requires (n == 0 ==> v == 1.0) && RealAbs(v) <= Cap(x, h, n)
    requires RealAbs(v - RealPow(x, n)) <= Error(Growth(x, h), h, n)
    ensures NearPower(v, x, h, n)
  {
    assert Unfold(0) && Fold(0);
  }

  lemma NearPowerStart(x: real, h: real)
    requires h >= 0.0
    ensures NearPower(1.0, x, h, 0) && NearPower(x, x, h, 1)
  {
    assert RealPow(x, 1) == x * RealPow(x, 0) == x;
    assert RealPow(Growth(x, h), 1) == Growth(x, h) * RealPow(Growth(x, h), 0) == Growth(x, h);
    NearPowerWhole(1.0, x, h, 0);
    NearPowerWhole(x, x, h, 1);
  }

  /** No number computed on the way exceeds the power of the growth. */
  lemma NearPowerBelow(v: real, x: real, h: real, n: nat)
    requires NearPower(v, x, h, n) && h >= 0.0
    ensures RealAbs(v) <= RealPow(Growth(x, h), n)
  {
    NearPowerParts(v, x, h, n);
    PowAtLeastOne(Growth(x, h), n);
  }

  lemma ProductCapped(u: real, v: real, w: real, x: real, h: real, m: nat, n: nat)
    requires m >= 1 && n >= 1 && h >= 0.0 && RoundsWithin(u, v, w, h)
    requires RealAbs(u) <= Cap(x, h, m) && RealAbs(v) <= Cap(x, h, n) && (RealAbs(x) <= 1.0 ==> RealAbs(w) <= 1.0)
    ensures RealAbs(w) <= Cap(x, h, m + n)
  {
    if RealAbs(x) > 1.0 {
      var g := Growth(x, h);
      PowAtLeastOne(g, m);
      PowAtLeastOne(g, n);
      PowIsProduct(g, m, n);
      CapOfProduct(u, v, w, RealPow(g, m), RealPow(g, n), RealPow(g, m + n), h);
    }
  }

  lemma ProductClose(u: real, v: real, w: real, x: real, g: real, h: real, m: nat, n: nat)
    requires m >= 1 && n >= 1 && RealAbs(x) <= g && 1.0 <= g && 0.0 <= h
    requires RoundsWithin(u, v, w, h) && RealAbs(u) <= RealPow(g, m)
    requires RealAbs(u - RealPow(x, m)) <= Error(g, h, m) && RealAbs(v - RealPow(x, n)) <= Error(g, h, n)
    ensures RealAbs(w - RealPow(x, m + n)) <= Error(g, h, m + n)
  {
    PowBelow(x, g, n);
    PowIsProduct(x, m, n);
    ErrorSum(g, h, m, n);
    ErrorOfProduct(u, v, w, RealPow(x, m), RealPow(x, n), RealPow(x, m + n), RealPow(g, m), RealPow(g, n),
                   Error(g, h, m), Error(g, h, n), Error(g, h, m + n), h);
  }

  /** A rounded product of numbers that are close to powers is close to a power. */
  lemma NearPowerProduct(u: real, v: real, w: real, x: real, h: real, m: nat, n: nat)
    requires NearPower(u, x, h, m) && NearPower(v, x, h, n) && h >= 0.0 && RoundsWithin(u, v, w, h)
    requires (m == 0 ==> w == v) && (n == 0 ==> w == u) && (RealAbs(x) <= 1.0 ==> RealAbs(w) <= 1.0)
    ensures NearPower(w, x, h, m + n)
  {
    if m >= 1 && n >= 1 {
      NearPowerParts(u, x, h, m);
      NearPowerParts(v, x, h, n);
      NearPowerBelow(u, x, h, m);
      ProductCapped(u, v, w, x, h, m, n);
      ProductClose(u, v, w, x, Growth(x, h), h, m, n);
      NearPowerWhole(w, x, h, m + n);
    }
  }

  /** The product of two such numbers is bounded by the last power of the growth. */
  lemma ProductOnTheWay(u: real, v: real, x: real, h: real, m: nat, n: nat, top: nat)
    requires NearPower(u, x, h, m) && NearPower(v, x, h, n) && h >= 0.0 && m + n <= top
    ensures RealAbs(u * v) <= RealPow(Growth(x, h), top)
  {
    var g := Growth(x, h);
    NearPowerBelow(u, x, h, m);
    NearPowerBelow(v, x, h, n);
    PowIsProduct(g, m, n);
    PowerUp(g, m + n, top);
    FactorsBelow(u, v, RealPow(g, m), RealPow(g, n), RealPow(g, m + n));
  }

  lemma FactorsBelow(u: real, v: real, a: real, c: real, ac: real)
    requires RealAbs(u) <= a && RealAbs(v) <= c && IsProduct(ac, a, c)
    ensures RealAbs(u * v) <= ac
  {
    assert Unfold(0);
    AbsProductBelow(u, v, a, c);
  }

  // ---------------------------------------------------------------------------
  // Scaled integers
  // ---------------------------------------------------------------------------

  lemma RatioToOne(v: real, b: real)
    requires v >= 0.0 && b >= 1.0
    ensures (RealAbs(v / b) <= 1.0 <==> v <= b) && (v / b == 1.0 <==> v == b)
  {
    var r := v / b;
    assert r * b == v;
    if r > 1.0 {
      RealMulStrict(1.0, r, b);
    } else if r < 1.0 {
      RealMulStrict(r, 1.0, b);
    }
    if r < 0.0 {
      RealMulStrict(r, 0.0, b);
    }
  }

  /** An integer product that misses a multiple of the scale by at most half of it. */
  lemma GapOf(u: real, v: real, w: real, b: real, d: real)
    requires b >= 1.0 && d == w * b - u * v && -b <= 2.0 * d <= b
    ensures RealAbs(w / b - (u / b) * (v / b)) <= 0.5 / b
  {
    var x, y, z := u / b, v / b, w / b;
    assert u == x * b && v == y * b && w == z * b;
    var gap := z - x * y;
    assert d == gap * b * b by {
      assert (x * b) * (y * b) == (x * y) * b * b;
      assert z * b * b - (x * y) * b * b == (z - x * y) * b * b;
    }
    var half := 0.5 / b;
    assert half * b == 0.5;
    if gap > half {
      RealMulStrict(half, gap, b);
      RealMulStrict(0.5, gap * b, b);
    } else if gap < -half {
      RealMulStrict(gap, -half, b);
      RealMulStrict(gap * b, -0.5, b);
    }
  }

  /** Rounding an integer product to the nearest multiple of the scale. */
  lemma ScaledRounds(u: int, v: int, w: int, b: int, d: int)
    requires b >= 1 && d == w * b - u * v && 0 <= 2 * d + b && 2 * d <= b
    ensures RoundsWithin(u as real / b as real, v as real / b as real, w as real / b as real, 0.5 / b as real)
  {
    var c := b as real;
    assert (w * b) as real == w as real * c && (u * v) as real == u as real * v as real;
    GapOf(u as real, v as real, w as real, c, d as real);
    assert Unfold(0) && Fold(0);
  }
}

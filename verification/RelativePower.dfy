/** Square-and-multiply powers of scaled numbers: `RelativePow` in `math/uint.go`. */
module RelativePower {
  import opened Decimal
  import opened DecimalPower
  import opened Hiding
  import opened PowerErrors

  // ---------------------------------------------------------------------------
  // Multiples of the base
  // ---------------------------------------------------------------------------

  /** `NewUintFromBigInt` panics on negative numbers and on more than 256 bits. */
  predicate ValidUint(n: int) {
    0 <= n < TWO_256
  }

  /** Adding half the base before dividing leaves an exact multiple of the base alone. */
  lemma RoundedQuotient(m: nat, b: nat)
    requires b >= 1
    ensures (m * b + b / 2) / b == m
  {
    var q := (m * b + b / 2) / b;
    assert m * b + b / 2 == q * b + (m * b + b / 2) % b;
    assert q > m ==> q * b >= (m + 1) * b;
    assert q < m ==> (q + 1) * b <= m * b;
  }

  lemma RelativeProduct(p: nat, q: nat, b: nat)
    requires b >= 1
    ensures ((p * b) * (q * b) + b / 2) / b == (p * q) * b
  {
    assert (p * b) * (q * b) == ((p * q) * b) * b;
    RoundedQuotient((p * q) * b, b);
  }

  lemma {:induction false} PowNat(k: nat, n: nat)
    ensures Pow(k, n) >= 0
  {
    if n > 0 { PowNat(k, n - 1); }
  }

  /** `v` is the `n`-th power of `k`, scaled by `b`. */
  ghost predicate TracksRelative(v: nat, k: nat, b: nat, n: nat) {
    v == Pow(k, n) * b
  }

  lemma TracksRelativeStart(k: nat, b: nat)
    ensures TracksRelative(b, k, b, 0) && TracksRelative(k * b, k, b, 1)
  {
    assert Pow(k, 1) == k * Pow(k, 0) == k;
  }

  lemma {:induction false} TracksRelativeProduct(u: nat, v: nat, k: nat, b: nat, m: nat, n: nat)
    requires b >= 1 && TracksRelative(u, k, b, m) && TracksRelative(v, k, b, n)
    ensures TracksRelative((u * v + b / 2) / b, k, b, m + n)
  {
    PowNat(k, m);
    PowNat(k, n);
    PowAdd(k, m, n);
    RelativeProduct(Pow(k, m), Pow(k, n), b);
  }

  lemma DivShrinks(n: nat, b: nat)
    requires b >= 1
    ensures n / b <= n
  {
    assert n == (n / b) * b + n % b;
    MulGrows(n / b, b);
  }

  /**
   * Multiplies, adds half the base and divides by the base; fails when a 256-bit check would
   * panic. Powers of `k` that the factors stand for are multiplied exactly.
   */
  method MulRounded(u: nat, v: nat, b: nat, ghost k: nat, ghost m: nat, ghost n: nat)
    returns (ok: bool, w: nat)
    requires ValidUint(b)
    ensures ok <==> b >= 1 && ValidUint(u * v + b / 2)
    ensures ok ==> ValidUint(w) && w == (u * v + b / 2) / b
    ensures ok && TracksRelative(u, k, b, m) && TracksRelative(v, k, b, n) ==>
              TracksRelative(w, k, b, m + n)
  {
    var p := u * v;
    if b == 0 || !ValidUint(p) || !ValidUint(p + b / 2) {
      return false, 0;
    }
    w := (p + b / 2) / b;
    assert ValidUint(w) by { DivShrinks(p + b / 2, b); }
    assert TracksRelative(u, k, b, m) && TracksRelative(v, k, b, n) ==> TracksRelative(w, k, b, m + n) by {
      if TracksRelative(u, k, b, m) && TracksRelative(v, k, b, n) {
        TracksRelativeProduct(u, v, k, b, m, n);
      }
    }
    ok := true;
  }

  /** What is computed for a power before it is divided by the base. */
  function Scaled(k: nat, n: nat, b: nat): int {
    Pow(k, n) * b * b + b / 2
  }

  lemma ProductScaled(u: nat, v: nat, k: nat, b: nat, m: nat, n: nat)
    requires TracksRelative(u, k, b, m) && TracksRelative(v, k, b, n)
    ensures u * v + b / 2 == Scaled(k, m + n, b)
  {
    PowAdd(k, m, n);
    FourFactors(Pow(k, m), Pow(k, n), b);
  }

  lemma FourFactors(p: int, q: int, b: int)
    ensures (p * b) * (q * b) == p * q * b * b
  {
    var x := p * b;
    calc {
      x * (q * b);
    ==
      (x * q) * b;
    ==
      { assert x * q == p * (b * q) == p * q * b; }
      p * q * b * b;
    }
  }

  /** If a power of a positive number is valid before the division, so are the lower ones. */
  lemma LowerPowersValid(k: nat, n: nat, m: nat, b: nat)
    requires k >= 1 && n <= m && ValidUint(Scaled(k, m, b))
    ensures ValidUint(Scaled(k, n, b))
  {
    PowNat(k, n);
    PowNat(k, m);
    PowNotSmaller(k, n, m);
    MulMonotone(Pow(k, n), Pow(k, m), b);
    MulMonotone(Pow(k, n) * b, Pow(k, m) * b, b);
  }

  /** A power that is not valid makes all higher ones not valid. */
  lemma Blocks(k: nat, n: nat, m: nat, b: nat)
    requires n <= m
    ensures k >= 1 && !ValidUint(Scaled(k, n, b)) ==> !ValidUint(Scaled(k, m, b))
  {
    if k >= 1 && ValidUint(Scaled(k, m, b)) {
      LowerPowersValid(k, n, m, b);
    }
  }

  lemma MulMonotone(x: nat, y: nat, z: nat)
    requires x <= y
    ensures 0 <= x * z <= y * z
  {
    assert y * z == x * z + (y - x) * z;
  }

  /** The power is valid before it is divided by the base. */
  ghost predicate Holds(k: nat, n: nat, b: nat) {
    forall z: int {:trigger Unfold(z)} :: Guard(z) ==> exists w: int {:trigger Fold(w)} ::
      Fold(w) && ValidUint(Scaled(k, n, b))
  }

  lemma HoldsParts(k: nat, n: nat, b: nat)
    ensures Holds(k, n, b) <==> ValidUint(Scaled(k, n, b))
  {
    assert Unfold(0) && Fold(0);
  }

  // ---------------------------------------------------------------------------
  // What the intermediate values stand for
  // ---------------------------------------------------------------------------

  ghost function Ratio(v: nat, b: nat): real
    requires b >= 1
  {
    v as real / b as real
  }

  /** Half a unit of the last place. */
  ghost function Half(b: nat): (h: real)
    requires b >= 1
    ensures h > 0.0
  {
    0.5 / b as real
  }

  /** What the errors of a power of `x` grow with. */
  ghost function GrowthOf(x: nat, b: nat): real
    requires b >= 1
  {
    Growth(Ratio(x, b), Half(b))
  }

  /** `v`, scaled by `b`, is close to the `n`-th power of `x`, scaled by `b`; multiples of the base are exact. */
  ghost predicate Near(v: nat, x: nat, b: nat, n: nat) {
    && b >= 1 && NearPower(Ratio(v, b), Ratio(x, b), Half(b), n)
    && (x % b == 0 ==> TracksRelative(v, x / b, b, n))
  }

  lemma ExactQuotient(x: nat, b: nat)
    requires b >= 1 && x % b == 0
    ensures x == (x / b) * b
  {
  }

  lemma NearStart(x: nat, b: nat)
    requires b >= 1
    ensures Near(b, x, b, 0) && Near(x, x, b, 1)
  {
    RatioToOne(b as real, b as real);
    NearPowerStart(Ratio(x, b), Half(b));
    if x % b == 0 {
      ExactQuotient(x, b);
      TracksRelativeStart(x / b, b);
    }
  }

  /** Adding half the base and dividing rounds to the nearest. */
  lemma RoundsNearest(u: nat, v: nat, w: nat, b: nat)
    requires b >= 1 && w == (u * v + b / 2) / b
    ensures RoundsWithin(Ratio(u, b), Ratio(v, b), Ratio(w, b), Half(b))
  {
    var p, d := u * v, w * b - u * v;
    assert p + b / 2 == w * b + (p + b / 2) % b;
    ScaledRounds(u, v, w, b, d);
  }

  lemma SmallProduct(u: nat, v: nat, w: nat, b: nat)
    requires b >= 1 && w == (u * v + b / 2) / b && u <= b && v <= b
    ensures w <= b
  {
    MulMonotone(u, b, v);
    MulMonotone(v, b, b);
    assert u * v <= b * v && v * b <= b * b;
    RoundedQuotient(b, b);
    DivMonotone(u * v + b / 2, b * b + b / 2, b);
  }

  lemma DivMonotone(x: nat, y: nat, b: nat)
    requires b >= 1 && x <= y
    ensures x / b <= y / b
  {
    var p, q := x / b, y / b;
    assert x == p * b + x % b && y == q * b + y % b;
    assert (q + 1) * b == q * b + b;
    if p > q {
      MulMonotone(q + 1, p, b);
    }
  }

  lemma TimesBase(v: nat, b: nat)
    requires b >= 1
    ensures (b * v + b / 2) / b == v && (v * b + b / 2) / b == v
  {
    RoundedQuotient(v, b);
    assert b * v == v * b;
  }

  lemma UnitRatio(v: nat, b: nat)
    requires b >= 1
    ensures RealAbs(Ratio(v, b)) <= 1.0 <==> v <= b
    ensures Ratio(v, b) == 1.0 <==> v == b
  {
    RatioToOne(v as real, b as real);
    assert (v as real <= b as real <==> v <= b) && (v as real == b as real <==> v == b);
  }

  /** What a rounded product of powers has to do with its factors. */
  lemma RoundedProduct(u: nat, v: nat, w: nat, b: nat)
    requires b >= 1 && w == (u * v + b / 2) / b
    ensures RoundsWithin(Ratio(u, b), Ratio(v, b), Ratio(w, b), Half(b))
    ensures (u == b ==> w == v) && (v == b ==> w == u) && (u <= b && v <= b ==> w <= b)
  {
    RoundsNearest(u, v, w, b);
    TimesBase(v, b);
    TimesBase(u, b);
    if u <= b && v <= b {
      SmallProduct(u, v, w, b);
    }
  }

  /** A rounded product of powers is a power again. */
  lemma NearProduct(u: nat, v: nat, w: nat, x: nat, b: nat, m: nat, n: nat)
    requires b >= 1 && w == (u * v + b / 2) / b && Near(u, x, b, m) && Near(v, x, b, n)
    ensures Near(w, x, b, m + n)
  {
    RoundedProduct(u, v, w, b);
    NearRatios(u, v, w, x, b, m, n);
    if x % b == 0 {
      TracksRelativeProduct(u, v, x / b, b, m, n);
    }
  }

  lemma NearRatios(u: nat, v: nat, w: nat, x: nat, b: nat, m: nat, n: nat)
    requires b >= 1 && RoundsWithin(Ratio(u, b), Ratio(v, b), Ratio(w, b), Half(b))
    requires (u == b ==> w == v) && (v == b ==> w == u) && (u <= b && v <= b ==> w <= b)
    requires NearPower(Ratio(u, b), Ratio(x, b), Half(b), m) && NearPower(Ratio(v, b), Ratio(x, b), Half(b), n)
    ensures NearPower(Ratio(w, b), Ratio(x, b), Half(b), m + n)
  {
    NearPowerParts(Ratio(u, b), Ratio(x, b), Half(b), m);
    NearPowerParts(Ratio(v, b), Ratio(x, b), Half(b), n);
    UnitRatio(u, b);
    UnitRatio(v, b);
    UnitRatio(w, b);
    NearPowerProduct(Ratio(u, b), Ratio(v, b), Ratio(w, b), Ratio(x, b), Half(b), m, n);
  }

  // ---------------------------------------------------------------------------
  // RelativePow
  // ---------------------------------------------------------------------------

  /** No product on the way to the power `top` leaves the 256-bit range before it is divided. */
  ghost predicate Roomy(x: nat, b: nat, top: nat) {
    forall z: int {:trigger Unfold(z)} :: Guard(z) ==> exists w: int {:trigger Fold(w)} ::
      && Fold(w)
      && b >= 1
      && forall u: nat, v: nat, m: nat, n: nat :: Near(u, x, b, m) && Near(v, x, b, n) && m + n <= top ==>
           ValidUint(u * v + b / 2)
  }

  lemma RatiosMultiply(u: nat, v: nat, b: nat)
    requires b >= 1
    ensures (u * v) as real == Ratio(u, b) * Ratio(v, b) * (b * b) as real
  {
    var x, y, c := Ratio(u, b), Ratio(v, b), b as real;
    assert u as real == x * c && v as real == y * c;
    assert (u * v) as real == u as real * v as real && (b * b) as real == c * c;
    FourReals(x, y, c);
  }

  lemma FourReals(x: real, y: real, c: real)
    ensures (x * c) * (y * c) == x * y * (c * c)
  {
    var d := c * c;
    assert (x * c) * (y * c) == x * (c * (y * c));
    assert c * (y * c) == y * d;
    assert x * (y * d) == x * y * d;
  }

  /** The power, scaled twice, and half the base are below 2^256 together. */
  ghost predicate HasRoom(power: real, square: real, half: real) {
    forall z: int {:trigger Unfold(z)} :: Guard(z) ==> exists w: int {:trigger Fold(w)} ::
      Fold(w) && power * square + half < TWO_256 as real
  }

  lemma HasRoomParts(power: real, square: real, half: real)
    ensures HasRoom(power, square, half) <==> power * square + half < TWO_256 as real
  {
    assert Unfold(0) && Fold(0);
  }

  lemma RoomForOne(u: nat, v: nat, x: nat, b: nat, m: nat, n: nat, top: nat, power: real)
    requires Near(u, x, b, m) && Near(v, x, b, n) && m + n <= top
    requires b >= 1 && power == RealPow(GrowthOf(x, b), top)
    requires HasRoom(power, (b * b) as real, (b / 2) as real)
    ensures ValidUint(u * v + b / 2)
  {
    ProductOnTheWay(Ratio(u, b), Ratio(v, b), Ratio(x, b), Half(b), m, n, top);
    RoomForFactors(u, v, b, power);
  }

  /** There is room if there is for the bound of the last power. */
  lemma RoomForAll(x: nat, b: nat, top: nat, power: real)
    requires b >= 1 && power == RealPow(GrowthOf(x, b), top)
    requires HasRoom(power, (b * b) as real, (b / 2) as real)
    ensures Roomy(x, b, top)
  {
    forall u: nat, v: nat, m: nat, n: nat | Near(u, x, b, m) && Near(v, x, b, n) && m + n <= top
      ensures ValidUint(u * v + b / 2)
    {
      RoomForOne(u, v, x, b, m, n, top, power);
    }
    assert Unfold(0) && Fold(0);
  }

  lemma RoomOnTheWay(u: nat, v: nat, x: nat, b: nat, m: nat, n: nat, top: nat)
    requires Near(u, x, b, m) && Near(v, x, b, n) && Roomy(x, b, top) && m + n <= top
    ensures b >= 1 && ValidUint(u * v + b / 2)
  {
    assert Unfold(0);
  }

  lemma RoomForFactors(u: nat, v: nat, b: nat, power: real)
    requires b >= 1 && RealAbs(Ratio(u, b) * Ratio(v, b)) <= power
    requires HasRoom(power, (b * b) as real, (b / 2) as real)
    ensures ValidUint(u * v + b / 2)
  {
    RatiosMultiply(u, v, b);
    RoomForProduct(u * v, b / 2, Ratio(u, b) * Ratio(v, b), power, (b * b) as real);
  }

  lemma RoomForProduct(p: nat, q: nat, ratio: real, power: real, square: real)
    requires p as real == ratio * square && ratio <= power && square >= 0.0
    requires HasRoom(power, square, q as real)
    ensures p + q < TWO_256
  {
    HasRoomParts(power, square, q as real);
    RealMulMonotone(ratio, power, square);
    WholeSum(p, q, power * square);
  }

  lemma WholeSum(p: nat, q: nat, cap: real)
    requires p as real <= cap && cap + q as real < TWO_256 as real
    ensures p + q < TWO_256
  {
  }

  /** `MulRounded` on the way to the power `top` of `x`: a failure is one of the last power, too. */
  method MulTowards(u: nat, v: nat, b: nat, ghost x: nat, ghost m: nat, ghost n: nat, ghost top: nat)
    returns (ok: bool, w: nat)
    requires ValidUint(b) && m + n <= top && x >= 1
    ensures ok ==> b >= 1 && ValidUint(w)
    ensures Near(u, x, b, m) && Near(v, x, b, n) ==>
              && (ok ==> Near(w, x, b, m + n))
              && (Roomy(x, b, top) ==> ok)
              && b >= 1
              && (x % b == 0 && !ok ==> !Holds(x / b, top, b))
              && (x % b == 0 && ok && m + n == top ==> Holds(x / b, top, b))
  {
    ok, w := MulRounded(u, v, b, if b >= 1 then x / b else 0, m, n);
    if Near(u, x, b, m) && Near(v, x, b, n) {
      if ok {
        NearProduct(u, v, w, x, b, m, n);
      }
      if Roomy(x, b, top) {
        RoomOnTheWay(u, v, x, b, m, n, top);
      }
      if x % b == 0 {
        ProductHolds(u, v, x, b, m, n, top);
      }
    }
  }

  lemma ProductHolds(u: nat, v: nat, x: nat, b: nat, m: nat, n: nat, top: nat)
    requires b >= 1 && x >= 1 && x % b == 0 && m + n <= top
    requires TracksRelative(u, x / b, b, m) && TracksRelative(v, x / b, b, n)
    ensures !ValidUint(u * v + b / 2) ==> !Holds(x / b, top, b)
    ensures ValidUint(u * v + b / 2) && m + n == top ==> Holds(x / b, top, b)
  {
    ExactQuotient(x, b);
    HoldsParts(x / b, top, b);
    ProductScaled(u, v, x / b, b, m, n);
    Blocks(x / b, m + n, top, b);
  }

  /**
   * Raises `x0`, scaled by the base `b`, to the power `n0`. The result is off by at most half a
   * unit for each of the `n0 - 1` products, where each error grows with the factors that follow
   * it. A whole multiple of the base gives the exact power, and fails exactly if that is too
   * large; any other number does not fail if there is room for the bound of its power.
   */
  method RelativePow(x0: nat, n0: nat, b: nat) returns (ok: bool, z: nat)
    requires ValidUint(x0) && ValidUint(n0) && ValidUint(b)
    ensures ok ==> ValidUint(z)
    ensures x0 == 0 ==> ok && z == if n0 == 0 then 1 else 0
    ensures ok && x0 > 0 && b >= 1 && x0 % b == 0 ==> z == Pow(x0 / b, n0) * b
    ensures x0 > 0 && b >= 1 && x0 % b == 0 ==> (ok <==> n0 <= 1 || ValidUint(Pow(x0 / b, n0) * b * b + b / 2))
    ensures ok && x0 > 0 && b >= 1 ==>
              RealAbs(Ratio(z, b) - RealPow(Ratio(x0, b), n0)) <= Error(GrowthOf(x0, b), Half(b), n0)
    ensures x0 > 0 && b >= 1 ==>
              (n0 <= 1 || RealPow(GrowthOf(x0, b), n0) * (b * b) as real + (b / 2) as real < TWO_256 as real ==> ok)
    ensures x0 > 0 && b == 0 ==> (ok <==> n0 <= 1)
  {
    if x0 == 0 {
      return true, if n0 == 0 then 1 else 0;
    }
    ok, z := PositivePow(x0, n0, b);
    if b >= 1 {
      ExactResult(x0, n0, b, ok, z);
      CloseResult(x0, n0, b, ok, z);
      if RealPow(GrowthOf(x0, b), n0) * (b * b) as real + (b / 2) as real < TWO_256 as real {
        HasRoomParts(RealPow(GrowthOf(x0, b), n0), (b * b) as real, (b / 2) as real);
        RoomForAll(x0, b, n0, RealPow(GrowthOf(x0, b), n0));
      }
    }
  }

  method PositivePow(x0: nat, n0: nat, b: nat) returns (ok: bool, z: nat)
    requires x0 >= 1 && ValidUint(x0) && ValidUint(b)
    ensures ok ==> ValidUint(z)
    ensures b >= 1 ==> (ok ==> Near(z, x0, b, n0)) && (n0 <= 1 || Roomy(x0, b, n0) ==> ok)
    ensures b >= 1 && x0 % b == 0 ==> (ok <==> n0 <= 1 || Holds(x0 / b, n0, b))
    ensures b == 0 ==> (ok <==> n0 <= 1)
  {
    if b >= 1 {
      NearStart(x0, b);
    }
    ok, z := RelativePowLoop(x0, n0 / 2, if n0 % 2 == 0 then b else x0, b, n0 % 2);
  }

  lemma ExactResult(x0: nat, n0: nat, b: nat, ok: bool, z: nat)
    requires b >= 1 && x0 >= 1 && (ok ==> Near(z, x0, b, n0))
    ensures ok && x0 % b == 0 ==> z == Pow(x0 / b, n0) * b
    ensures Holds(x0 / b, n0, b) <==> ValidUint(Pow(x0 / b, n0) * b * b + b / 2)
  {
    HoldsParts(x0 / b, n0, b);
  }

  lemma CloseResult(x0: nat, n0: nat, b: nat, ok: bool, z: nat)
    requires b >= 1 && x0 >= 1 && (ok ==> Near(z, x0, b, n0))
    ensures ok ==> RealAbs(Ratio(z, b) - RealPow(Ratio(x0, b), n0)) <= Error(GrowthOf(x0, b), Half(b), n0)
  {
    if ok {
      NearPowerParts(Ratio(z, b), Ratio(x0, b), Half(b), n0);
    }
  }

  /** The loop of `RelativePow`: if `z0` stands for the power `t0` of `x0`, the result stands for the last power. */
  method RelativePowLoop(x0: nat, n0: nat, z0: nat, b: nat, ghost t0: nat) returns (ok: bool, z: nat)
    requires x0 >= 1 && ValidUint(b) && ValidUint(z0)
    ensures ok ==> ValidUint(z)
    ensures Near(x0, x0, b, 1) && Near(z0, x0, b, t0) ==>
              && (ok ==> Near(z, x0, b, t0 + 2 * n0))
              && (n0 == 0 || Roomy(x0, b, t0 + 2 * n0) ==> ok)
              && b >= 1 && (x0 % b == 0 ==> (ok <==> n0 == 0 || Holds(x0 / b, t0 + 2 * n0, b)))
    ensures b == 0 ==> (ok <==> n0 == 0)
  {
    var x, n := x0, n0;
    z := z0;
    // x stands for x0^a and z for x0^t.
    ghost var a: nat, t: nat, top := 1, t0, t0 + 2 * n0;
    ghost var near := Near(x0, x0, b, 1) && Near(z0, x0, b, t0);
    while n > 0
      invariant t + (a + a) * n == top
      invariant ValidUint(z)
      invariant near ==> Near(x, x0, b, a) && Near(z, x0, b, t)
      invariant b == 0 ==> n == n0
      invariant near && x0 % b == 0 && n == 0 < n0 ==> Holds(x0 / b, top, b)
    {
      HalveExponent(t, a + a, n, top);
      MulGrows(a + a, n);
      ok, x := MulTowards(x, x, b, x0, a, a, top);
      if !ok {
        return;
      }
      a := a + a;
      if n % 2 == 1 {
        ok, z := MulTowards(z, x, b, x0, t, a, top);
        if !ok {
          return;
        }
        t := t + a;
      }
      n := n / 2;
    }
    ok := true;
  }

  /** The documented example: 2.1 squared, scaled by 100, is 441. */
  method DocumentedPower() returns (ok: bool, z: nat)
    ensures ok && z == 441
  {
    ok, z := RelativePow(210, 2, 100);
    ghost var r, g := Ratio(210, 100), GrowthOf(210, 100);
    assert r == 2.1 && g == 2.105;
    assert RealPow(r, 2) == r * (r * RealPow(r, 0)) && RealPow(g, 2) == g * (g * RealPow(g, 0));
  }
}

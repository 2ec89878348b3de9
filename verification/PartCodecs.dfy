/** The codecs of single key parts (`collections/codec`). */
module PartCodecs {
  import opened Bytes
  import opened KeyCodec
  import opened Options

  // ---------------------------------------------------------------------------
  // Integers: big endian; signed integers with the most significant bit toggled
  // ---------------------------------------------------------------------------

  function Pow256(n: nat): (p: nat)
    ensures p >= 1
  {
    if n == 0 then 1 else 256 * Pow256(n - 1)
  }

  function BigEndian(n: nat, width: nat): (b: Key)
    requires n < Pow256(width)
    ensures |b| == width
  {
    if width == 0 then []
    else
      DigitBound(n, Pow256(width - 1));
      [n / Pow256(width - 1)] + BigEndian(n % Pow256(width - 1), width - 1)
  }

  lemma DigitBound(n: nat, p: nat)
    requires p >= 1 && n < 256 * p
    ensures 0 <= n / p < 256 && n == (n / p) * p + n % p
  {
    var q := n / p;
    assert q >= 256 ==> q * p >= 256 * p;
  }

  function FromBigEndian(b: Key): nat {
    if b == [] then 0 else b[0] * Pow256(|b| - 1) + FromBigEndian(b[1..])
  }

  lemma {:induction false} BigEndianInverse(n: nat, width: nat)
    requires n < Pow256(width)
    ensures FromBigEndian(BigEndian(n, width)) == n
    decreases width
  {
    if width > 0 {
      var p := Pow256(width - 1);
      DigitBound(n, p);
      BigEndianInverse(n % p, width - 1);
      assert BigEndian(n, width)[1..] == BigEndian(n % p, width - 1);
    }
  }

  /** The leading digits of two numbers and the rests, which decide the order of the numbers. */
  lemma FirstDigits(m: nat, n: nat, width: nat) returns (d: Byte, r: nat, d': Byte, r': nat)
    requires width > 0 && m < Pow256(width) && n < Pow256(width)
    ensures r < Pow256(width - 1) && r' < Pow256(width - 1)
    ensures BigEndian(m, width) == [d] + BigEndian(r, width - 1)
    ensures BigEndian(n, width) == [d'] + BigEndian(r', width - 1)
    ensures m < n <==> d < d' || (d == d' && r < r')
  {
    var p := Pow256(width - 1);
    DigitBound(m, p);
    DigitBound(n, p);
    DigitOrder(m, n, p);
    d, r, d', r' := m / p, m % p, n / p, n % p;
  }

  /** Byte order is number order. */
  lemma {:induction false} BigEndianOrder(m: nat, n: nat, width: nat)
    requires m < Pow256(width) && n < Pow256(width)
    ensures Less(BigEndian(m, width), BigEndian(n, width)) <==> m < n
    decreases width
  {
    if width > 0 {
      var d, r, d', r' := FirstDigits(m, n, width);
      BigEndianOrder(r, r', width - 1);
      LessCons(d, BigEndian(r, width - 1), d', BigEndian(r', width - 1));
    }
  }

  lemma LessCons(x: Byte, a: Key, y: Byte, b: Key)
    ensures Less([x] + a, [y] + b) <==> x < y || (x == y && Less(a, b))
  {
    assert ([x] + a)[1..] == a && ([y] + b)[1..] == b;
  }

  lemma DigitOrder(m: nat, n: nat, p: nat)
    requires p >= 1
    ensures m < n <==> m / p < n / p || (m / p == n / p && m % p < n % p)
  {
    var q, q' := m / p, n / p;
    assert m == q * p + m % p && n == q' * p + n % p;
    assert q < q' ==> (q + 1) * p <= q' * p;
    assert q' < q ==> (q' + 1) * p <= q * p;
  }

  function UintCodec(width: nat): Codec<nat> {
    Codec((_, n: nat) => if n < Pow256(width) then Some(BigEndian(n, width)) else None,
          (_, b: Key) => if |b| < width then None else Some((width, FromBigEndian(b[..width]))),
          (_, _) => width)
  }

  lemma UintLawful(width: nat)
    ensures Lawful(UintCodec(width), _ => true)
    ensures forall terminal, n: nat :: UintCodec(width).encode(terminal, n).Some? <==> n < Pow256(width)
  {
    var c := UintCodec(width);
    forall n: nat, terminal, rest | c.encode(terminal, n).Some?
      ensures c.decode(terminal, c.encode(terminal, n).value + rest) == Some((width, n))
    {
      assert (BigEndian(n, width) + rest)[..width] == BigEndian(n, width);
      BigEndianInverse(n, width);
    }
    forall n: nat | c.encode(true, n).Some?
      ensures c.decode(true, c.encode(true, n).value) == Some((width, n))
    {
      assert c.encode(true, n).value + [] == c.encode(true, n).value;
    }
  }

  /** `buffer[0] ^= 0x80` */
  function ToggleTopBit(b: Key): Key
    requires b != []
  {
    [if b[0] < 128 then b[0] + 128 else b[0] - 128] + b[1..]
  }

  /** Half the range of a signed integer of the given width. */
  function HalfRange(width: nat): (h: int)
    requires width >= 1
    ensures 2 * h == Pow256(width)
  {
    128 * Pow256(width - 1)
  }

  predicate Signed(n: int, width: nat)
    requires width >= 1
  {
    -HalfRange(width) <= n < HalfRange(width)
  }

  /** The conversion from a signed to an unsigned integer of the same width. */
  function TwosComplement(n: int, width: nat): (u: nat)
    requires width >= 1 && Signed(n, width)
    ensures u < Pow256(width)
  {
    if n < 0 then n + Pow256(width) else n
  }

  function EncodeInt(n: int, width: nat): Key
    requires width >= 1 && Signed(n, width)
  {
    ToggleTopBit(BigEndian(TwosComplement(n, width), width))
  }

  /** Toggling the top bit shifts the signed range onto the unsigned one. */
  lemma ToggledIsShifted(n: int, width: nat)
    requires width >= 1 && Signed(n, width)
    ensures EncodeInt(n, width) == BigEndian(n + HalfRange(width), width)
  {
    var p := Pow256(width - 1);
    var u, s := TwosComplement(n, width), n + HalfRange(width);
    DigitBound(u, p);
    DigitBound(s, p);
    if n < 0 {
      assert u == s + 128 * p;
      SameTail(s, 128, p);
    } else {
      assert s == u + 128 * p;
      SameTail(u, 128, p);
    }
  }

  lemma SameTail(n: nat, k: nat, p: nat)
    requires p >= 1
    ensures (n + k * p) / p == n / p + k && (n + k * p) % p == n % p
  {
    var q, r := n / p, n % p;
    assert n + k * p == (q + k) * p + r;
    QuotientUnique(n + k * p, q + k, r, p);
  }

  lemma QuotientUnique(n: nat, q: nat, r: nat, p: nat)
    requires p >= 1 && r < p && n == q * p + r
    ensures n / p == q && n % p == r
  {
    var q' := n / p;
    assert n == q' * p + n % p;
    assert q' > q ==> q' * p >= (q + 1) * p;
    assert q' < q ==> (q' + 1) * p <= q * p;
  }

  /** Byte order is the order of the signed integers. */
  lemma EncodeIntOrder(m: int, n: int, width: nat)
    requires width >= 1 && Signed(m, width) && Signed(n, width)
    ensures Less(EncodeInt(m, width), EncodeInt(n, width)) <==> m < n
  {
    ToggledIsShifted(m, width);
    ToggledIsShifted(n, width);
    BigEndianOrder(m + HalfRange(width), n + HalfRange(width), width);
  }

  function DecodeInt(b: Key, width: nat): Option<(nat, int)>
    requires width >= 1
  {
    if |b| < width then None
    else
      var u := FromBigEndian(ToggleTopBit(b[..width]));
      Some((width, if u < HalfRange(width) then u else u - Pow256(width)))
  }

  function IntCodec(width: nat): Codec<int>
    requires width >= 1
  {
    Codec((_, n) => if Signed(n, width) then Some(EncodeInt(n, width)) else None,
          (_, b) => DecodeInt(b, width),
          (_, _) => width)
  }

  lemma ToggleTwice(b: Key)
    requires b != []
    ensures ToggleTopBit(ToggleTopBit(b)) == b
  {
    assert ToggleTopBit(b)[1..] == b[1..];
  }

  lemma IntDecodes(n: int, width: nat, rest: Key)
    requires width >= 1 && Signed(n, width)
    ensures DecodeInt(EncodeInt(n, width) + rest, width) == Some((width, n))
  {
    var u := TwosComplement(n, width);
    assert (EncodeInt(n, width) + rest)[..width] == EncodeInt(n, width);
    ToggleTwice(BigEndian(u, width));
    BigEndianInverse(u, width);
  }

  lemma IntLawful(width: nat)
    requires width >= 1
    ensures Lawful(IntCodec(width), _ => true)
    ensures forall terminal, n :: IntCodec(width).encode(terminal, n).Some? <==> Signed(n, width)
  {
    forall n: int, rest | Signed(n, width)
      ensures DecodeInt(EncodeInt(n, width) + rest, width) == Some((width, n))
    {
      IntDecodes(n, width, rest);
    }
    forall n: int | Signed(n, width)
      ensures DecodeInt(EncodeInt(n, width), width) == Some((width, n))
    {
      IntDecodes(n, width, []);
      assert EncodeInt(n, width) + [] == EncodeInt(n, width);
    }
  }

  // ---------------------------------------------------------------------------
  // Byte strings: a length byte in the non-terminal form
  // ---------------------------------------------------------------------------

  const MAX_BYTES_NON_TERMINAL := 255

  function BytesCodec(): Codec<Key> {
    Codec((terminal, k: Key) =>
            if terminal then Some(k)
            else if |k| > MAX_BYTES_NON_TERMINAL then None
            else Some([|k|] + k),
          (terminal, b: Key) =>
            if terminal then Some((|b|, b))
            else if b == [] || |b| - 1 < b[0] then None
            else Some((b[0] as int + 1, b[1..b[0] as int + 1])),
          (terminal, k: Key) => if terminal then |k| else |k| + 1)
  }

  /** Byte strings have a non-terminal form up to 255 bytes, and only up to there. */
  lemma BytesLawful()
    ensures Lawful(BytesCodec(), _ => true)
    ensures forall k :: BytesCodec().encode(false, k).Some? <==> |k| <= MAX_BYTES_NON_TERMINAL
    ensures forall k :: BytesCodec().encode(true, k) == Some(k)
  {
    var c := BytesCodec();
    forall k, rest | c.encode(false, k).Some?
      ensures c.decode(false, c.encode(false, k).value + rest) == Some((|c.encode(false, k).value|, k))
    {
      assert ([|k|] + k + rest)[1..|k| + 1] == k;
    }
  }

  // ---------------------------------------------------------------------------
  // Strings: a zero byte ends the non-terminal form
  // ---------------------------------------------------------------------------

  predicate Continuation(b: Byte) {
    0x80 <= b <= 0xBF
  }

  /** The second byte of a well-formed multi-byte rune that starts with `lead`. */
  predicate SecondByte(lead: Byte, b: Byte) {
    if lead == 0xE0 then 0xA0 <= b <= 0xBF
    else if lead == 0xED then 0x80 <= b <= 0x9F
    else if lead == 0xF0 then 0x90 <= b <= 0xBF
    else if lead == 0xF4 then 0x80 <= b <= 0x8F
    else Continuation(b)
  }

  /** The number of bytes that a loop over the runes of a string steps over. */
  function RuneWidth(s: Key): (w: nat)
    requires s != []
    ensures 1 <= w <= |s|
    ensures forall i :: 1 <= i < w ==> s[i] >= 0x80
  {
    if 0xC2 <= s[0] <= 0xDF && |s| >= 2 && SecondByte(s[0], s[1]) then 2
    else if 0xE0 <= s[0] <= 0xEF && |s| >= 3 && SecondByte(s[0], s[1]) && Continuation(s[2]) then 3
    else if 0xF0 <= s[0] <= 0xF4 && |s| >= 4 && SecondByte(s[0], s[1]) && Continuation(s[2])
            && Continuation(s[3]) then 4
    else 1
  }

  predicate OneByteRunes(s: Key) {
    forall i :: 0 <= i < |s| ==> RuneWidth(s[i..]) == 1
  }

  function ZeroBytes(n: nat): (z: Key)
    ensures |z| == n && forall i :: 0 <= i < n ==> z[i] == 0
  {
    seq(n, _ => 0)
  }

  /**
   * The loop visits the first byte of every rune only, so the other bytes of a multi-byte rune
   * stay zero in the fresh buffer.
   */
  function StringBody(s: Key): (b: Option<Key>)
    ensures b.Some? ==> |b.value| == |s|
  {
    if s == [] then Some([])
    else if s[0] == 0 then None
    else
      var w := RuneWidth(s);
      Concat(Some([s[0]] + ZeroBytes(w - 1)), StringBody(s[w..]))
  }

  function StringCodec(): Codec<Key> {
    Codec((terminal, s: Key) => if terminal then Some(s) else Concat(StringBody(s), Some([0])),
          (terminal, b: Key) =>
            if terminal then Some((|b|, b))
            else
              var i := IndexOfZero(b);
              if i == |b| then None else Some((i + 1, b[..i])),
          (terminal, s: Key) => if terminal then |s| else |s| + 1)
  }

  /** `bytes.IndexByte(b, 0)`, with the length for "not found". */
  function IndexOfZero(b: Key): (i: nat)
    ensures i <= |b| && (i < |b| ==> b[i] == 0) && forall j :: 0 <= j < i ==> b[j] != 0
  {
    if b == [] || b[0] == 0 then 0 else 1 + IndexOfZero(b[1..])
  }

  lemma FirstZero(b: Key, i: nat)
    requires i < |b| && b[i] == 0 && forall j :: 0 <= j < i ==> b[j] != 0
    ensures IndexOfZero(b) == i
  {
  }

  /** The non-terminal encoding fails exactly for strings that contain the delimiter. */
  lemma {:induction false} StringBodyDefined(s: Key)
    ensures StringBody(s).Some? <==> 0 !in s
  {
    if s != [] && s[0] != 0 {
      var w := RuneWidth(s);
      StringBodyDefined(s[w..]);
      assert s == s[..w] + s[w..];
      assert 0 !in s[..w];
    }
  }

  lemma OneByteRunesTail(s: Key)
    requires s != [] && RuneWidth(s) == 1
    ensures OneByteRunes(s) <==> OneByteRunes(s[1..])
  {
    assert s[0..] == s;
    assert forall i :: 0 <= i < |s[1..]| ==> s[1..][i..] == s[i + 1..];
    if OneByteRunes(s[1..]) {
      forall i | 0 <= i < |s| ensures RuneWidth(s[i..]) == 1 {
        if i > 0 { assert s[i..] == s[1..][i - 1..]; }
      }
    }
  }

  lemma StringBodyCons(s: Key)
    requires s != [] && 0 !in s && RuneWidth(s) == 1 && StringBody(s[1..]).Some?
    ensures StringBody(s) == Some([s[0]] + StringBody(s[1..]).value)
  {
    var body := StringBody(s[1..]).value;
    assert [s[0]] + ZeroBytes(0) + body == [s[0]] + body;
  }

  lemma StringBodySkips(s: Key)
    requires s != [] && 0 !in s && RuneWidth(s) > 1 && StringBody(s).Some?
    ensures |StringBody(s).value| > 1 && StringBody(s).value[1] == 0 && !OneByteRunes(s)
  {
    assert s[0..] == s;
  }

  /** A string of one-byte runes is copied; the first longer rune leaves a zero behind. */
  lemma {:induction false} StringBodyExact(s: Key)
    requires 0 !in s
    ensures StringBody(s).Some?
    ensures OneByteRunes(s) ==> StringBody(s).value == s
    ensures !OneByteRunes(s) ==> 0 in StringBody(s).value
  {
    StringBodyDefined(s);
    if s != [] {
      if RuneWidth(s) == 1 {
        StringBodyExact(s[1..]);
        OneByteRunesTail(s);
        StringBodyCons(s);
        assert s == [s[0]] + s[1..];
      } else {
        StringBodySkips(s);
      }
    }
  }

  /**
   * The non-terminal form of a string without the delimiter is read back, whatever follows,
   * exactly when the string has no multi-byte rune.
   */
  lemma StringNonTerminal(s: Key, rest: Key)
    requires 0 !in s
    ensures StringCodec().encode(false, s).Some?
    ensures StringCodec().decode(false, StringCodec().encode(false, s).value + rest) == Some((|s| + 1, s))
        <==> OneByteRunes(s)
  {
    StringBodyExact(s);
    var body := StringBody(s).value;
    assert StringCodec().encode(false, s) == Some(body + [0]);
    ReadsToZero(body, rest);
  }

  /** A delimited string is read back exactly when it does not contain the delimiter. */
  lemma ReadsToZero(body: Key, rest: Key)
    ensures 0 !in body ==> StringCodec().decode(false, body + [0] + rest) == Some((|body| + 1, body))
    ensures 0 in body ==>
              var r := StringCodec().decode(false, body + [0] + rest); r.Some? && r.value.0 < |body| + 1
  {
    var b := body + [0] + rest;
    if 0 in body {
      ZeroInside(body, rest);
    } else {
      FirstZero(b, |body|);
      assert b[..|body|] == body;
    }
  }

  lemma ZeroInside(body: Key, rest: Key)
    requires 0 in body
    ensures IndexOfZero(body + [0] + rest) < |body|
  {
    var i :| 0 <= i < |body| && body[i] == 0;
    assert (body + [0] + rest)[i] == 0;
  }

  lemma StringLawful()
    ensures Lawful(StringCodec(), OneByteRunes)
    ensures forall s :: StringCodec().encode(false, s).Some? <==> 0 !in s
    ensures forall s :: StringCodec().encode(true, s) == Some(s)
  {
    var c := StringCodec();
    forall s ensures c.encode(false, s).Some? <==> 0 !in s {
      StringBodyDefined(s);
    }
    forall s, rest | OneByteRunes(s) && c.encode(false, s).Some?
      ensures c.decode(false, c.encode(false, s).value + rest) == Some((|c.encode(false, s).value|, s))
    {
      StringBodyDefined(s);
      StringNonTerminal(s, rest);
    }
  }

  /** The two bytes of U+00E9 come back as the first of them alone. */
  lemma MultiByteRuneIsLost()
    ensures StringCodec().encode(false, [0xC3, 0xA9]) == Some([0xC3, 0, 0])
    ensures StringCodec().decode(false, [0xC3, 0, 0]) == Some((2, [0xC3]))
  {
    assert RuneWidth([0xC3, 0xA9]) == 2;
    assert [0xC3, 0xA9][2..] == [];
    assert StringBody([0xC3, 0xA9]) == Some([0xC3] + ZeroBytes(1) + []);
    assert [0xC3] + ZeroBytes(1) + [] == [0xC3, 0];
    assert [0xC3, 0] + [0] == [0xC3, 0, 0];
    FirstZero([0xC3, 0, 0], 1);
    assert [0xC3, 0, 0][..1] == [0xC3];
  }
}

/** Printing and parsing decimals: `LegacyDec.String` and `LegacyNewDecFromStr`. */
module DecimalText {
  import opened Decimal
  import opened Hiding

  const DIGITS_AFTER_POINT: nat := 18

  predicate IsDigit(c: char) {
    '0' <= c <= '9'
  }

  function DigitChar(d: nat): (c: char)
    requires d < 10
    ensures IsDigit(c) && DigitValue(c) == d
  {
    '0' + d as char
  }

  function DigitValue(c: char): nat
    requires IsDigit(c)
  {
    c as nat - '0' as nat
  }

  predicate AllDigits(s: string) {
    forall i :: 0 <= i < |s| ==> IsDigit(s[i])
  }

  /** `big.Int.MarshalText` of a non-negative number: no leading zeros, "0" for zero. */
  function Digits(n: nat): (s: string)
    ensures |s| >= 1 && AllDigits(s)
  {
    if n < 10 then [DigitChar(n)] else Digits(n / 10) + [DigitChar(n % 10)]
  }

  /** The number that a string of digits denotes. */
  function Number(s: string): nat
    requires AllDigits(s)
  {
    if s == [] then 0 else Number(s[..|s| - 1]) * 10 + DigitValue(s[|s| - 1])
  }

  lemma {:induction false} NumberOfDigits(n: nat)
    ensures Number(Digits(n)) == n
  {
    if n >= 10 {
      NumberOfDigits(n / 10);
      assert Digits(n)[..|Digits(n)| - 1] == Digits(n / 10);
    } else {
      assert Digits(n)[..0] == [];
    }
  }

  function Pow10(n: nat): (p: nat)
    ensures p > 0
  {
    if n == 0 then 1 else Pow10(n - 1) * 10
  }

  lemma EighteenDigits()
    ensures Pow10(DIGITS_AFTER_POINT) == PRECISION
  {
    assert Pow10(3) == 1_000;
    assert Pow10(6) == 1_000_000;
    assert Pow10(9) == 1_000_000_000;
    assert Pow10(12) == 1_000_000_000_000;
    assert Pow10(15) == 1_000_000_000_000_000;
  }

  function Zeros(n: nat): (s: string)
    ensures |s| == n && AllDigits(s)
  {
    if n == 0 then "" else "0" + Zeros(n - 1)
  }

  /** Leading zeros do not change the number. */
  lemma {:induction false} NumberLeadingZeros(n: nat, s: string)
    requires AllDigits(s)
    ensures AllDigits(Zeros(n) + s) && Number(Zeros(n) + s) == Number(s)
    decreases n, |s|
  {
    if s == [] {
      assert Zeros(n) + s == Zeros(n);
      if n > 0 {
        ZerosAtEnd(n);
        assert Zeros(n)[..n - 1] == Zeros(n - 1);
        NumberLeadingZeros(n - 1, s);
        assert Zeros(n - 1) + s == Zeros(n - 1);
      }
    } else {
      assert (Zeros(n) + s)[..|Zeros(n) + s| - 1] == Zeros(n) + s[..|s| - 1];
      NumberLeadingZeros(n, s[..|s| - 1]);
    }
  }

  lemma {:induction false} ZerosAtEnd(n: nat)
    requires n > 0
    ensures Zeros(n) == Zeros(n - 1) + "0"
  {
    if n > 1 { ZerosAtEnd(n - 1); }
  }

  // ---------------------------------------------------------------------------
  // Printer
  // ---------------------------------------------------------------------------

  /** The printed form of a magnitude: 18 digits after the point, at least one before it. */
  function Layout(n: nat): (s: string) {
    var digits := Digits(n);
    if |digits| <= DIGITS_AFTER_POINT then
      "0." + Zeros(DIGITS_AFTER_POINT - |digits|) + digits
    else
      var point := |digits| - DIGITS_AFTER_POINT;
      digits[..point] + "." + digits[point..]
  }

  function Printed(i: int): (s: string) {
    if i < 0 then "-" + Layout(-i) else Layout(i)
  }

  /** `copy(dst[at:], src)` for a source that fits. */
  method CopyInto(dst: array<char>, at: nat, src: string)
    requires at + |src| <= dst.Length
    modifies dst
    ensures dst[..] == old(dst[..at]) + src + old(dst[at + |src|..])
  {
    var i := 0;
    while i < |src|
      invariant 0 <= i <= |src|
      invariant dst[..at] == old(dst[..at])
      invariant dst[at..at + i] == src[..i]
      invariant dst[at + i..] == old(dst[at + i..])
    {
      dst[at + i] := src[i];
      i := i + 1;
    }
    assert dst[..] == dst[..at] + dst[at..at + |src|] + dst[at + |src|..];
  }

  /** The purely fractional layout: "0.", zeros and the digits. */
  method FillShort(digits: string) returns (buffer: array<char>)
    requires |digits| <= DIGITS_AFTER_POINT
    ensures fresh(buffer) && buffer[..] == "0." + Zeros(DIGITS_AFTER_POINT - |digits|) + digits
  {
    buffer := new char[DIGITS_AFTER_POINT + 2];
    buffer[0] := '0';
    buffer[1] := '.';
    var k := 0;
    while k < DIGITS_AFTER_POINT - |digits|
      invariant 0 <= k <= DIGITS_AFTER_POINT - |digits|
      invariant buffer[..k + 2] == "0." + Zeros(k)
    {
      ZerosAtEnd(k + 1);
      buffer[k + 2] := '0';
      k := k + 1;
      assert buffer[..k + 2] == buffer[..k + 1] + "0";
    }
    CopyInto(buffer, 2 + k, digits);
    assert buffer[..] == buffer[..2 + k] + digits;
  }

  /** The mixed layout: a point before the last digits. */
  method FillLong(digits: string) returns (buffer: array<char>)
    requires |digits| > DIGITS_AFTER_POINT
    ensures var point := |digits| - DIGITS_AFTER_POINT;
            fresh(buffer) && buffer[..] == digits[..point] + "." + digits[point..]
  {
    buffer := new char[|digits| + 1];
    var point := |digits| - DIGITS_AFTER_POINT;
    CopyInto(buffer, 0, digits[..point]);
    buffer[point] := '.';
    CopyInto(buffer, point + 1, digits[point..]);
    assert buffer[..] == digits[..point] + "." + digits[point..];
  }

  /** Fills a byte buffer, in the purely fractional or in the mixed layout. */
  method String(i: int) returns (s: string)
    ensures s == Printed(i)
  {
    var isNeg := i < 0;
    var digits := Digits(if isNeg then -i else i);
    var buffer: array<char>;
    if |digits| <= DIGITS_AFTER_POINT {
      buffer := FillShort(digits);
    } else {
      buffer := FillLong(digits);
    }
    s := if isNeg then "-" + buffer[..] else buffer[..];
  }

  // ---------------------------------------------------------------------------
  // Parser
  // ---------------------------------------------------------------------------

  datatype ParseError = EmptyString | InvalidLength | InvalidString | TooPrecise | NotANumber | OutOfRange

  datatype Parsed = Ok(i: int) | Err(error: ParseError)

  /** `strings.Split(s, ".")` */
  function SplitAtPoints(s: string): (parts: seq<string>)
    ensures |parts| >= 1
  {
    if s == [] then [""]
    else
      var rest := SplitAtPoints(s[1..]);
      if s[0] == '.' then [""] + rest else [[s[0]] + rest[0]] + rest[1..]
  }

  function Signed(neg: bool, n: int): int {
    if neg then -n else n
  }

  /** `big.Int.SetString(s, 10)`: an optional sign, then at least one digit. */
  function SetString(s: string): Parsed {
    var signed := s != [] && (s[0] == '-' || s[0] == '+');
    var magnitude := if signed then s[1..] else s;
    if magnitude == [] || !AllDigits(magnitude) then Err(NotANumber)
    else Ok(Signed(signed && s[0] == '-', Number(magnitude)))
  }

  function FromString(s: string): (r: Parsed)
    ensures r.Ok? ==> InRange(r.i)
  {
    var neg := s != [] && s[0] == '-';
    var str := if neg then s[1..] else s;
    if str == [] then Err(EmptyString) else FromBody(neg, str)
  }

  function FromBody(neg: bool, str: string): (r: Parsed)
    ensures r.Ok? ==> InRange(r.i)
  {
    var strs := SplitAtPoints(str);
    if |strs| > 2 then Err(InvalidString)
    else if |strs| == 2 && (strs[1] == [] || strs[0] == []) then Err(InvalidLength)
    else FromParts(neg, strs[0], if |strs| == 2 then strs[1] else "")
  }

  /** The digits before and after the point, filled up with zeros, as one number. */
  function FromParts(neg: bool, whole: string, decimals: string): (r: Parsed)
    ensures r.Ok? ==> InRange(r.i)
  {
    if |decimals| > DIGITS_AFTER_POINT then Err(TooPrecise)
    else
      var combined := SetString(whole + decimals + Zeros(DIGITS_AFTER_POINT - |decimals|));
      if combined.Err? then combined
      else
        var i := Signed(neg, combined.i);
        if InRange(i) then Ok(i) else Err(OutOfRange)
  }

  /** How many points a string has decides into how many parts it is split, and the parts make up the string. */
  lemma {:induction false} SplitParts(s: string)
    ensures var parts := SplitAtPoints(s);
            && (|parts| == 1 <==> '.' !in s)
            && (|parts| == 1 ==> parts[0] == s)
            && (|parts| == 2 ==> s == parts[0] + "." + parts[1] && '.' !in parts[0] && '.' !in parts[1])
            && '.' !in parts[0]
  {
    if s != [] {
      var rest := SplitAtPoints(s[1..]);
      SplitParts(s[1..]);
      assert s == [s[0]] + s[1..];
      if s[0] == '.' {
        assert s[0] in s;
        assert |rest| == 1 ==> s == "" + "." + rest[0];
      } else if |rest| == 2 {
        assert [s[0]] + (rest[0] + "." + rest[1]) == ([s[0]] + rest[0]) + "." + rest[1];
      }
    }
  }

  lemma {:induction false} SplitWithoutPoint(s: string)
    requires '.' !in s
    ensures SplitAtPoints(s) == [s]
  {
    if s != [] {
      SplitWithoutPoint(s[1..]);
      assert [s[0]] + s[1..] == s;
    }
  }

  lemma {:induction false} SplitAtPoint(whole: string, fraction: string)
    requires '.' !in whole && '.' !in fraction
    ensures SplitAtPoints(whole + "." + fraction) == [whole, fraction]
  {
    var s := whole + "." + fraction;
    if whole == [] {
      SplitWithoutPoint(fraction);
      assert s[1..] == fraction;
    } else {
      assert s[1..] == whole[1..] + "." + fraction;
      SplitAtPoint(whole[1..], fraction);
      assert [whole[0]] + whole[1..] == whole;
    }
  }

  // ---------------------------------------------------------------------------
  // What is parsed
  // ---------------------------------------------------------------------------

  /**
   * What a string can consist of: a minus sign that is taken off, another sign, digits, and a point with digits
   * after it. The documented form has one sign and at least one digit before the point.
   */
  datatype Literal = Literal(neg: bool, mark: string, whole: string, point: bool, fraction: string)

  predicate IsLiteral(n: Literal) {
    && AllDigits(n.whole) && AllDigits(n.fraction)
    && (n.mark == "" || n.mark == "+" || (n.mark == "-" && n.neg)) && n.mark + n.whole != ""
    && if n.point then 1 <= |n.fraction| <= DIGITS_AFTER_POINT else n.fraction == ""
  }

  function Body(n: Literal): string {
    n.mark + n.whole + if n.point then "." + n.fraction else ""
  }

  function Text(n: Literal): string {
    if n.neg then "-" + Body(n) else Body(n)
  }

  /** The decimal that a literal denotes, with 18 digits after the point. */
  function Denoted(n: Literal): int
    requires IsLiteral(n)
  {
    Signed(n.neg != (n.mark == "-"),
           Number(n.whole) * PRECISION + Number(n.fraction) * Pow10(DIGITS_AFTER_POINT - |n.fraction|))
  }

  lemma MulByTen(x: nat, y: nat)
    ensures x * y * 10 == x * (y * 10)
  {
  }

  lemma {:induction false} NumberConcat(a: string, b: string)
    requires AllDigits(a) && AllDigits(b)
    ensures AllDigits(a + b) && Number(a + b) == Number(a) * Pow10(|b|) + Number(b)
  {
    if b == [] {
      assert a + b == a;
    } else {
      var n := |b| - 1;
      assert (a + b)[..|a + b| - 1] == a + b[..n];
      NumberConcat(a, b[..n]);
      MulByTen(Number(a), Pow10(n));
    }
  }

  lemma PaddedFraction(fraction: string, zeros: nat)
    requires AllDigits(fraction)
    ensures AllDigits(fraction + Zeros(zeros)) && Number(fraction + Zeros(zeros)) == Number(fraction) * Pow10(zeros)
  {
    NumberConcat(fraction, Zeros(zeros));
    NumberLeadingZeros(zeros, "");
    assert Zeros(zeros) + "" == Zeros(zeros);
  }

  lemma PaddedNumber(whole: string, fraction: string, zeros: nat)
    requires AllDigits(whole) && AllDigits(fraction) && |fraction| + zeros == DIGITS_AFTER_POINT
    ensures AllDigits(whole + fraction + Zeros(zeros))
    ensures Number(whole + fraction + Zeros(zeros)) == Number(whole) * PRECISION + Number(fraction) * Pow10(zeros)
  {
    var padded := fraction + Zeros(zeros);
    PaddedFraction(fraction, zeros);
    NumberConcat(whole, padded);
    assert whole + fraction + Zeros(zeros) == whole + padded;
    EighteenDigits();
  }

  /** The sign and the digits of a number. */
  lemma SetStringOf(mark: string, digits: string)
    requires (mark == "" || mark == "+" || mark == "-") && AllDigits(digits) && digits != ""
    ensures SetString(mark + digits) == Ok(Signed(mark == "-", Number(digits)))
  {
    assert IsDigit(digits[0]);
    assert mark != "" ==> (mark + digits)[1..] == digits;
    assert mark == "" ==> mark + digits == digits;
  }

  lemma SplitBody(n: Literal)
    requires IsLiteral(n)
    ensures SplitAtPoints(Body(n)) == if n.point then [n.mark + n.whole, n.fraction] else [n.mark + n.whole]
    ensures Body(n) != "" && (!n.neg ==> Body(n)[0] != '-')
  {
    assert !IsDigit('.') && '.' !in n.mark + n.whole && '.' !in n.fraction;
    if n.point {
      SplitAtPoint(n.mark + n.whole, n.fraction);
      assert Body(n) == n.mark + n.whole + "." + n.fraction;
    } else {
      SplitWithoutPoint(n.mark + n.whole);
      assert Body(n) == n.mark + n.whole;
    }
    assert n.whole != "" ==> IsDigit(n.whole[0]);
  }

  lemma Regroup(a: string, b: string, c: string, d: string)
    ensures a + b + c + d == a + (b + c + d)
  {
  }

  lemma PartsOf(neg: bool, mark: string, whole: string, fraction: string, v: nat)
    requires (mark == "" || mark == "+" || mark == "-") && |fraction| <= DIGITS_AFTER_POINT
    requires var digits := whole + fraction + Zeros(DIGITS_AFTER_POINT - |fraction|);
             digits != "" && AllDigits(digits) && Number(digits) == v
    ensures var i := Signed(neg != (mark == "-"), v);
            FromParts(neg, mark + whole, fraction) == if InRange(i) then Ok(i) else Err(OutOfRange)
  {
    var zeros := Zeros(DIGITS_AFTER_POINT - |fraction|);
    SetStringOf(mark, whole + fraction + zeros);
    Regroup(mark, whole, fraction, zeros);
  }

  lemma DenotedBy(n: Literal) returns (digits: string)
    requires IsLiteral(n)
    ensures digits == n.whole + n.fraction + Zeros(DIGITS_AFTER_POINT - |n.fraction|)
    ensures AllDigits(digits) && Denoted(n) == Signed(n.neg != (n.mark == "-"), Number(digits))
  {
    digits := n.whole + n.fraction + Zeros(DIGITS_AFTER_POINT - |n.fraction|);
    PaddedNumber(n.whole, n.fraction, DIGITS_AFTER_POINT - |n.fraction|);
  }

  /** The parts of a literal denote what it does. */
  lemma ParsesParts(n: Literal)
    requires IsLiteral(n)
    ensures FromParts(n.neg, n.mark + n.whole, n.fraction)
         == if InRange(Denoted(n)) then Ok(Denoted(n)) else Err(OutOfRange)
  {
    var digits := DenotedBy(n);
    NonEmpty(n.whole, n.fraction);
    PartsOf(n.neg, n.mark, n.whole, n.fraction, Number(digits));
  }

  /** Every literal is parsed as what it denotes, if that is in range. */
  lemma ParsesLiteral(n: Literal)
    requires IsLiteral(n)
    ensures FromString(Text(n)) == if InRange(Denoted(n)) then Ok(Denoted(n)) else Err(OutOfRange)
  {
    SplitBody(n);
    ParsesParts(n);
    assert ("-" + Body(n))[1..] == Body(n);
  }

  lemma NumberParts(mark: string, digits: string)
    requires SetString(mark + digits).Ok? && digits != ""
    requires mark == "-" || mark == "+" || (mark == "" && digits[0] != '-' && digits[0] != '+')
    ensures AllDigits(digits)
  {
    assert mark == "" ==> mark + digits == digits;
    assert mark != "" ==> (mark + digits)[1..] == digits;
  }

  lemma DigitsApart(a: string, b: string, c: string)
    requires AllDigits(a + b + c)
    ensures AllDigits(a) && AllDigits(b)
  {
    assert forall k :: 0 <= k < |a| ==> a[k] == (a + b + c)[k];
    assert forall k :: 0 <= k < |b| ==> b[k] == (a + b + c)[|a| + k];
  }

  /** Parts that are parsed are a sign and digits. */
  lemma PartsAreDigits(neg: bool, first: string, decimals: string) returns (mark: string, whole: string)
    requires var r := FromParts(neg, first, decimals); r.Ok? || r.error == OutOfRange
    requires first != "" && (neg || first[0] != '-')
    ensures |decimals| <= DIGITS_AFTER_POINT && AllDigits(whole) && AllDigits(decimals) && first == mark + whole
    ensures mark == "" || mark == "+" || (mark == "-" && neg)
  {
    mark := if first[0] == '-' || first[0] == '+' then first[..1] else "";
    whole := first[|mark|..];
    var zeros := Zeros(DIGITS_AFTER_POINT - |decimals|);
    assert first == mark + whole;
    Regroup(mark, whole, decimals, zeros);
    NonEmpty(whole, decimals);
    NumberParts(mark, whole + decimals + zeros);
    DigitsApart(whole, decimals, zeros);
  }

  lemma NonEmpty(whole: string, decimals: string)
    ensures |decimals| <= DIGITS_AFTER_POINT ==> whole + decimals + Zeros(DIGITS_AFTER_POINT - |decimals|) != ""
  {
  }

  lemma PartsAreLiteral(neg: bool, first: string, point: bool, decimals: string) returns (n: Literal)
    requires var r := FromParts(neg, first, decimals); r.Ok? || r.error == OutOfRange
    requires first != "" && (neg || first[0] != '-') && (point <==> decimals != "")
    ensures IsLiteral(n) && n.neg == neg && Body(n) == if point then first + "." + decimals else first
  {
    var mark, whole := PartsAreDigits(neg, first, decimals);
    n := Literal(neg, mark, whole, point, decimals);
    assert first + ("." + decimals) == first + "." + decimals;
    assert first + "" == first;
  }

  lemma BodyIsLiteral(neg: bool, str: string) returns (n: Literal)
    requires str != [] && (neg || str[0] != '-')
    requires FromBody(neg, str).Ok? || FromBody(neg, str).error == OutOfRange
    ensures IsLiteral(n) && n.neg == neg && Body(n) == str
  {
    SplitParts(str);
    var strs := SplitAtPoints(str);
    if |strs| == 2 {
      assert str[0] == strs[0][0];
      n := PartsAreLiteral(neg, strs[0], true, strs[1]);
    } else {
      n := PartsAreLiteral(neg, str, false, "");
    }
  }

  /** Whatever is parsed, or is out of range, is a literal. */
  lemma ParsedIsLiteral(s: string) returns (n: Literal)
    requires FromString(s).Ok? || FromString(s).error == OutOfRange
    ensures IsLiteral(n) && Text(n) == s
  {
    if s[0] == '-' {
      n := BodyIsLiteral(true, s[1..]);
      MinusApart(s);
    } else {
      n := BodyIsLiteral(false, s);
    }
  }

  lemma MinusApart(s: string)
    requires s != "" && s[0] == '-'
    ensures "-" + s[1..] == s
  {
  }

  /** A string is parsed exactly if it is a literal that denotes a decimal in range. */
  lemma ParsesExactly(s: string)
    ensures FromString(s).Ok? <==> exists n :: IsLiteral(n) && Text(n) == s && InRange(Denoted(n))
    ensures FromString(s) == Err(OutOfRange) <==> exists n :: IsLiteral(n) && Text(n) == s && !InRange(Denoted(n))
  {
    if FromString(s).Ok? || FromString(s).error == OutOfRange {
      var n := ParsedIsLiteral(s);
      ParsesLiteral(n);
    }
    forall n | IsLiteral(n) && Text(n) == s
      ensures FromString(s) == if InRange(Denoted(n)) then Ok(Denoted(n)) else Err(OutOfRange)
    {
      ParsesLiteral(n);
    }
  }

  /** The points of a string are where it is split. */
  lemma {:induction false} SplitCounts(s: string)
    ensures |SplitAtPoints(s)| == multiset(s)['.'] + 1
  {
    if s != [] {
      SplitCounts(s[1..]);
      assert s == [s[0]] + s[1..];
    }
  }

  lemma PartsRefused(neg: bool, whole: string, decimals: string)
    ensures var r := FromParts(neg, whole, decimals);
            r.Err? ==> r.error == TooPrecise || r.error == NotANumber || r.error == OutOfRange
  {
  }

  lemma BodyRefused(neg: bool, str: string)
    requires str != []
    ensures FromBody(neg, str) != Err(EmptyString)
    ensures FromBody(neg, str) == Err(InvalidString) <==> multiset(str)['.'] >= 2
    ensures FromBody(neg, str) == Err(InvalidLength) <==>
              multiset(str)['.'] == 1 && (str[0] == '.' || str[|str| - 1] == '.')
  {
    SplitCounts(str);
    SplitParts(str);
    var strs := SplitAtPoints(str);
    PartsRefused(neg, strs[0], if |strs| == 2 then strs[1] else "");
    if |strs| == 2 {
      PointAtEnds(strs[0], strs[1]);
    }
  }

  lemma PointAtEnds(a: string, b: string)
    requires '.' !in a && '.' !in b
    ensures var s := a + "." + b; (s[0] == '.' <==> a == "") && (s[|s| - 1] == '.' <==> b == "")
  {
    assert a != "" ==> a[0] in a;
    assert b != "" ==> b[|b| - 1] in b;
  }

  /** Which strings are refused before their digits are looked at. */
  lemma RefusedEarly(s: string)
    ensures FromString(s) == Err(EmptyString) <==> s == "" || s == "-"
    ensures FromString(s) == Err(InvalidString) <==> multiset(s)['.'] >= 2
    ensures FromString(s) == Err(InvalidLength) <==>
              multiset(s)['.'] == 1 && (s[|s| - 1] == '.' || s[0] == '.' || (s[0] == '-' && s[1] == '.'))
  {
    if s != [] && s[0] == '-' {
      assert s == ['-'] + s[1..];
      if s[1..] != [] {
        BodyRefused(true, s[1..]);
      }
    } else if s != [] {
      BodyRefused(false, s);
    }
  }

  /** One minus sign at most, and no other sign. */
  ghost predicate Documented(s: string) {
    exists n :: IsLiteral(n) && n.mark == "" && Text(n) == s
  }

  /** A string that is parsed has the documented form exactly if it has no second sign and no plus sign. */
  lemma ParsedIsDocumented(s: string)
    requires FromString(s).Ok?
    ensures s != "" && (s[0] == '-' ==> |s| > 1)
    ensures Documented(s) <==> s[0] != '+' && (s[0] == '-' ==> s[1] != '+' && s[1] != '-')
  {
    var n := ParsedIsLiteral(s);
    SplitBody(n);
    forall n | IsLiteral(n) && n.mark == "" && Text(n) == s
      ensures s[0] != '+' && (s[0] == '-' ==> s[1] != '+' && s[1] != '-')
    {
      SplitBody(n);
      assert IsDigit(n.whole[0]) && Body(n)[0] == n.whole[0];
    }
  }

  /** A plus sign alone is parsed as zero, and two minus signs cancel out. */
  lemma LooseSigns()
    ensures FromString("+") == Ok(0) && FromString("--5") == Ok(5 * PRECISION)
  {
    var plus, five := Literal(false, "+", "", false, ""), Literal(true, "-", "5", false, "");
    ParsesLiteral(plus);
    ParsesLiteral(five);
    assert Text(plus) == "+" && Text(five) == "--5";
    assert Number("5") == 5 && Number("") == 0;
  }

  lemma PointAfterZero(zeros: string, digits: string)
    ensures "0." + zeros + digits == "0" + "." + (zeros + digits)
    ensures "0" + (zeros + digits) == "0" + zeros + digits
  {
  }

  lemma ShortLayout(n: nat, zeros: nat)
    requires |Digits(n)| + zeros == DIGITS_AFTER_POINT
    ensures Layout(n) == "0" + "." + (Zeros(zeros) + Digits(n))
    ensures Number("0" + (Zeros(zeros) + Digits(n))) == n
  {
    var digits := Digits(n);
    NumberOfDigits(n);
    NumberLeadingZeros(zeros + 1, digits);
    PointAfterZero(Zeros(zeros), digits);
  }

  lemma Halves(digits: string, point: nat)
    requires point <= |digits| && AllDigits(digits)
    ensures digits[..point] + digits[point..] == digits && AllDigits(digits[..point]) && AllDigits(digits[point..])
  {
  }

  /** The layout splits into digits around a point whose value is the number printed. */
  lemma LayoutParts(n: nat) returns (whole: string, fraction: string)
    ensures whole != [] && |fraction| == DIGITS_AFTER_POINT
    ensures AllDigits(whole) && AllDigits(fraction) && AllDigits(whole + fraction)
    ensures Layout(n) == whole + "." + fraction
    ensures Number(whole + fraction) == n
  {
    var digits := Digits(n);
    if |digits| <= DIGITS_AFTER_POINT {
      var zeros := DIGITS_AFTER_POINT - |digits|;
      whole, fraction := "0", Zeros(zeros) + digits;
      ShortLayout(n, zeros);
    } else {
      var point := |digits| - DIGITS_AFTER_POINT;
      whole, fraction := digits[..point], digits[point..];
      Halves(digits, point);
      NumberOfDigits(n);
    }
  }

  lemma {:induction false} NumberBelow(s: string)
    requires AllDigits(s)
    ensures Number(s) < Pow10(|s|)
  {
    if s != [] {
      NumberBelow(s[..|s| - 1]);
    }
  }

  lemma DivUnique(x: nat, m: nat, q: nat, r: nat)
    requires m > 0 && x == q * m + r && r < m
    ensures x / m == q && x % m == r
  {
    var q', r' := x / m, x % m;
    assert x == q' * m + r';
    assert (q + 1) * m == q * m + m && (q' + 1) * m == q' * m + m;
    if q < q' {
      MulAtMost(q + 1, q', m);
    } else if q' < q {
      MulAtMost(q' + 1, q, m);
    }
  }

  lemma MulAtMost(a: nat, b: nat, m: nat)
    requires a <= b
    ensures a * m <= b * m
  {
    assert b * m == a * m + (b - a) * m;
  }

  lemma DropDigit(n: nat, q: nat, m: nat, r: nat)
    requires n == q * (m * 10) + r && r < m * 10
    ensures n / 10 == q * m + r / 10 && r / 10 < m
  {
    assert q * (m * 10) == (q * m) * 10;
  }

  lemma {:induction false} WithoutLast(n: nat, k: nat)
    requires 1 <= k < |Digits(n)|
    ensures |Digits(n)| == |Digits(n / 10)| + 1
    ensures Digits(n)[..|Digits(n)| - k] == Digits(n / 10)[..|Digits(n / 10)| - (k - 1)]
  {
  }

  /** `q` is the quotient of `n` and 10^k, and `r` the remainder. */
  ghost predicate Divides(n: nat, k: nat, q: nat, r: nat) {
    forall z: int {:trigger Unfold(z)} :: Guard(z) ==> exists w: int {:trigger Fold(w)} ::
      Fold(w) && n == q * Pow10(k) + r && r < Pow10(k)
  }

  lemma DividesNext(n: nat, k: nat, q: nat, r: nat)
    requires Divides(n, k, q, r)
    ensures if k == 0 then n == q else Divides(n / 10, k - 1, q, r / 10)
  {
    assert Unfold(0);
    if k > 0 {
      DropDigit(n, q, Pow10(k - 1), r);
    }
  }

  /** The leading digits of a number are the digits of its quotient. */
  lemma {:induction false} LeadingDigits(n: nat, k: nat, q: nat, r: nat)
    requires k < |Digits(n)| && Divides(n, k, q, r)
    ensures Digits(n)[..|Digits(n)| - k] == Digits(q)
  {
    DividesNext(n, k, q, r);
    if k == 0 {
      assert Digits(n)[..|Digits(n)|] == Digits(n);
    } else {
      WithoutLast(n, k);
      LeadingDigits(n / 10, k - 1, q, r / 10);
    }
  }

  lemma LayoutForm(n: nat) returns (fraction: string)
    ensures Layout(n) == Digits(n / PRECISION) + "." + fraction
    ensures |fraction| == DIGITS_AFTER_POINT && AllDigits(fraction) && Number(fraction) == n % PRECISION
  {
    var whole, f := LayoutParts(n);
    fraction := f;
    NumberConcat(whole, fraction);
    NumberBelow(fraction);
    EighteenDigits();
    DivUnique(n, PRECISION, Number(whole), Number(fraction));
    if |Digits(n)| > DIGITS_AFTER_POINT {
      assert Unfold(0) && Fold(0);
      LeadingDigits(n, DIGITS_AFTER_POINT, Number(whole), Number(fraction));
      SameSplit(whole, fraction, Digits(n)[..|Digits(n)| - DIGITS_AFTER_POINT],
                Digits(n)[|Digits(n)| - DIGITS_AFTER_POINT..]);
    }
  }

  lemma SameSplit(a: string, b: string, c: string, d: string)
    requires a + "." + b == c + "." + d && |b| == |d|
    ensures a == c && b == d
  {
    assert |a| == |c|;
    assert a == (a + "." + b)[..|a|] && c == (c + "." + d)[..|c|];
    assert b == (a + "." + b)[|a| + 1..] && d == (c + "." + d)[|c| + 1..];
  }

  /** Sign, whole part without leading zeros, point, and exactly 18 digits. */
  lemma PrintedForm(i: int) returns (fraction: string)
    ensures Printed(i) == (if i < 0 then "-" else "") + Digits(Abs(i) / PRECISION) + "." + fraction
    ensures |fraction| == DIGITS_AFTER_POINT && AllDigits(fraction) && Number(fraction) == Abs(i) % PRECISION
  {
    fraction := LayoutForm(Abs(i));
    Regroup("-", Digits(Abs(i) / PRECISION), ".", fraction);
    Regroup("", Digits(Abs(i) / PRECISION), ".", fraction);
  }

  /**
   * Printing and parsing undo each other for every decimal in the valid range, in the purely
   * fractional and in the mixed layout and for both signs.
   */
  lemma {:induction false} ParsePrinted(i: int)
    requires InRange(i)
    ensures FromString(Printed(i)) == Ok(i)
  {
    var whole, fraction := LayoutParts(Abs(i));
    var n := PlainLiteral(i < 0, whole, fraction);
    ParsesLiteral(n);
  }

  lemma PlainLiteral(neg: bool, whole: string, fraction: string) returns (n: Literal)
    requires whole != "" && AllDigits(whole) && AllDigits(fraction) && |fraction| == DIGITS_AFTER_POINT
    ensures IsLiteral(n) && Text(n) == (if neg then "-" + (whole + "." + fraction) else whole + "." + fraction)
    ensures AllDigits(whole + fraction) && Denoted(n) == Signed(neg, Number(whole + fraction))
  {
    n := Literal(neg, "", whole, true, fraction);
    NumberConcat(whole, fraction);
    EighteenDigits();
    assert Body(n) == whole + "." + fraction;
  }

  /** Different decimals therefore never print alike. */
  lemma PrintedInjective(i: int, j: int)
    requires InRange(i) && InRange(j) && Printed(i) == Printed(j)
    ensures i == j
  {
    ParsePrinted(i);
    ParsePrinted(j);
  }
}

/** The numbers of the text protocol (the-great-approximator/msg_parser.cpp:17-98, 203-207).

    A double is an integer count of 10^-7: the scanner admits at most seven digits after the
    point and the printer emits exactly seven, so on these texts std::stod and the printer are
    exact. */
module Decimals {
  import opened Wrappers
  import opened Greedy
  import opened Poly

  const MAX_FRACTIONAL_DIGITS := 7
  const INT_MIN := -INT_MAX - 1

  predicate IsDigit(c: char) {
    '0' <= c <= '9'
  }

  predicate AllDigits(s: string) {
    forall i :: 0 <= i < |s| ==> IsDigit(s[i])
  }

  function DigitValue(c: char): nat
    requires IsDigit(c)
  {
    c as int - '0' as int
  }

  function DigitChar(d: nat): (c: char)
    requires d < 10
    ensures IsDigit(c) && DigitValue(c) == d
  {
    ('0' as int + d) as char
  }

  function Number(s: string): nat
    requires AllDigits(s)
  {
    if s == "" then 0 else 10 * Number(s[..|s| - 1]) + DigitValue(s[|s| - 1])
  }

  function PowerOfTen(n: nat): nat {
    if n == 0 then 1 else 10 * PowerOfTen(n - 1)
  }

  // ----- Printing

  function Digits(n: nat): string {
    if n < 10 then [DigitChar(n)] else Digits(n / 10) + [DigitChar(n % 10)]
  }

  function PaddedDigits(n: nat, width: nat): string {
    if width == 0 then "" else PaddedDigits(n / 10, width - 1) + [DigitChar(n % 10)]
  }

  function IntegerToString(v: int): string {
    (if v < 0 then "-" else "") + Digits(Abs(v))
  }

  /** std::fixed with a precision of seven. */
  function DoubleToString(v: int): string {
    (if v < 0 then "-" else "") +
    (Digits(Abs(v) / SCALE) + ("." + PaddedDigits(Abs(v) % SCALE, MAX_FRACTIONAL_DIGITS)))
  }

  lemma {:induction false} DigitsRead(n: nat)
    ensures Digits(n) != "" && AllDigits(Digits(n)) && Number(Digits(n)) == n
  {
    if n >= 10 {
      DigitsRead(n / 10);
      assert Digits(n)[..|Digits(n)| - 1] == Digits(n / 10);
    } else {
      assert Digits(n)[..0] == "";
    }
  }

  lemma {:induction false} PaddedDigitsRead(n: nat, width: nat)
    requires n < PowerOfTen(width)
    ensures |PaddedDigits(n, width)| == width && AllDigits(PaddedDigits(n, width))
    ensures Number(PaddedDigits(n, width)) == n
  {
    if width > 0 {
      PaddedDigitsRead(n / 10, width - 1);
      var s := PaddedDigits(n, width);
      assert s[..|s| - 1] == PaddedDigits(n / 10, width - 1);
    }
  }

  lemma {:induction false} NoLeadingZero(n: nat)
    ensures Digits(n) != "" && (|Digits(n)| > 1 ==> Digits(n)[0] != '0')
  {
    if n >= 10 {
      NoLeadingZero(n / 10);
      DigitsRead(n / 10);
      if |Digits(n / 10)| == 1 {
        assert Digits(n / 10)[..0] == "";
      }
    }
  }

  /** A printed number: a minus sign exactly when it is negative, digits without a superfluous
      zero in front, and for a double a point and seven digits. */
  lemma PrintedShape(v: int)
    ensures var whole := (if v < 0 then "-" else "") + Digits(if v < 0 then -v / 10_000_000 else v / 10_000_000);
            var s := DoubleToString(v);
            && |s| == |whole| + 8 && s[..|whole|] == whole && s[|whole|] == '.' && AllDigits(s[|whole| + 1..])
    ensures IntegerToString(v) == (if v < 0 then "-" else "") + Digits(if v < 0 then -v else v)
    ensures forall n: nat :: |Digits(n)| > 1 ==> Digits(n)[0] != '0'
  {
    forall n: nat
      ensures |Digits(n)| > 1 ==> Digits(n)[0] != '0'
    {
      NoLeadingZero(n);
    }
    assert PowerOfTen(7) == 10_000_000;
    PaddedDigitsRead(Abs(v) % SCALE, MAX_FRACTIONAL_DIGITS);
    var fraction := PaddedDigits(Abs(v) % SCALE, MAX_FRACTIONAL_DIGITS);
    var whole := (if v < 0 then "-" else "") + Digits(Abs(v) / SCALE);
    assert DoubleToString(v) == whole + ("." + fraction);
  }

  // ----- The language of the scanner

  /** An optional minus sign, digits, an optional point and digits. */
  datatype Decimal = Decimal(negative: bool, whole: string, point: bool, fraction: string) {
    predicate Valid() {
      && AllDigits(whole) && AllDigits(fraction)
      && |fraction| <= MAX_FRACTIONAL_DIGITS
      && (!point ==> fraction == "")
      && |whole| + |fraction| > 0
    }

    function Text(): string {
      (if negative then "-" else "") + Body()
    }

    function Body(): string {
      whole + if point then ['.'] + fraction else fraction
    }

    /** The number written, in units of 10^-7. */
    function Units(): int
      requires Valid()
    {
      var m := Number(whole) * SCALE + Number(fraction) * PowerOfTen(MAX_FRACTIONAL_DIGITS - |fraction|);
      if negative then -m else m
    }
  }

  /** The number of leading digits. */
  function Span(s: string): (n: nat)
    ensures n <= |s| && AllDigits(s[..n]) && (n < |s| ==> !IsDigit(s[n]))
  {
    if s != "" && IsDigit(s[0]) then 1 + Span(s[1..]) else 0
  }

  predicate HasMinus(s: string) {
    s != "" && s[0] == '-'
  }

  function Unsigned(s: string): string {
    if HasMinus(s) then s[1..] else s
  }

  /** The parts of a text as the scanner meets them. */
  function Scan(s: string): Decimal {
    var u := Unsigned(s);
    var w := Span(u);
    var point := w < |u| && u[w] == '.';
    Decimal(HasMinus(s), u[..w], point, u[if point then w + 1 else w..])
  }

  predicate IsDouble(s: string) {
    Scan(s).Valid()
  }

  function ParseDouble(s: string): Option<int> {
    if IsDouble(s) then Some(Scan(s).Units()) else None
  }

  predicate IsInteger(s: string) {
    Unsigned(s) != "" && AllDigits(Unsigned(s))
  }

  function ParseInteger(s: string): Option<int> {
    if !IsInteger(s) then None
    else
      var n: int := Number(Unsigned(s));
      var v := if HasMinus(s) then -n else n;
      if INT_MIN <= v <= INT_MAX then Some(v) else None
  }

  lemma SignAndRest(s: string)
    ensures (if HasMinus(s) then "-" else "") + Unsigned(s) == s
  {
  }

  lemma PointAndRest(u: string, w: nat)
    requires w < |u| && u[w] == '.'
    ensures u == u[..w] + (['.'] + u[w + 1..])
  {
  }

  lemma ScanKeepsText(s: string)
    ensures Scan(s).Text() == s
  {
    var d, u := Scan(s), Unsigned(s);
    var w := Span(u);
    SignAndRest(s);
    if d.point {
      PointAndRest(u, w);
    } else {
      assert u == u[..w] + u[w..];
    }
  }

  lemma {:induction false} SpanOf(digits: string, rest: string)
    requires AllDigits(digits) && (rest == "" || !IsDigit(rest[0]))
    ensures Span(digits + rest) == |digits|
  {
    if digits == "" {
      assert digits + rest == rest;
    } else {
      assert (digits + rest)[1..] == digits[1..] + rest;
      SpanOf(digits[1..], rest);
    }
  }

  lemma SignReadsBack(d: Decimal)
    requires d.Valid()
    ensures HasMinus(d.Text()) == d.negative && Unsigned(d.Text()) == d.Body()
  {
    assert d.Body()[0] == if d.whole != "" then d.whole[0] else '.';
  }

  lemma ScanReadsBack(d: Decimal)
    requires d.Valid()
    ensures Scan(d.Text()) == d
  {
    SignReadsBack(d);
    var rest := if d.point then ['.'] + d.fraction else d.fraction;
    SpanOf(d.whole, rest);
    assert d.Body()[..|d.whole|] == d.whole;
    assert d.Body()[|d.whole|..] == rest;
    assert d.point ==> d.Body()[|d.whole| + 1..] == d.fraction;
  }

  /** The scanner accepts exactly an optional '-', digits, an optional point and at most seven
      digits with at least one digit in all, and what is parsed is the number so written. */
  lemma ParseDoubleReadsDecimals(s: string, v: int)
    ensures ParseDouble(s) == Some(v) <==> exists d: Decimal :: d.Valid() && d.Text() == s && d.Units() == v
  {
    if ParseDouble(s) == Some(v) {
      ScanKeepsText(s);
      assert Scan(s).Valid() && Scan(s).Text() == s && Scan(s).Units() == v;
    }
    if d: Decimal :| d.Valid() && d.Text() == s && d.Units() == v {
      ScanReadsBack(d);
    }
  }

  predicate DigitOrPoint(c: char) {
    '0' <= c <= '9' || c == '.'
  }

  /** Digits and at most one point, with at least one digit in all and at most seven behind the
      point. */
  predicate IsNumeralBody(u: string) {
    && (forall i :: 0 <= i < |u| ==> DigitOrPoint(u[i]))
    && (exists i :: 0 <= i < |u| && IsDigit(u[i]))
    && forall i :: 0 <= i < |u| && u[i] == '.' ==> |u| - i <= 8 && '.' !in u[i + 1..]
  }

  predicate IsNumeral(s: string) {
    IsNumeralBody(if s != "" && s[0] == '-' then s[1..] else s)
  }

  lemma BodyAt(d: Decimal, i: nat)
    requires d.Valid() && i < |d.Body()|
    ensures var w := |d.whole|;
            && (i < w ==> d.Body()[i] == d.whole[i])
            && (i == w ==> d.point && d.Body()[i] == '.')
            && (i > w ==> i - w - 1 < |d.fraction| && d.Body()[i] == d.fraction[i - w - 1])
  {
  }

  lemma BodyIsNumeral(d: Decimal)
    requires d.Valid()
    ensures IsNumeralBody(d.Body())
  {
    var u := d.Body();
    forall i | 0 <= i < |u|
      ensures DigitOrPoint(u[i]) && (u[i] == '.' <==> i == |d.whole|)
    {
      BodyAt(d, i);
    }
    var digit := if d.whole != "" then 0 else 1;
    BodyAt(d, digit);
    assert IsDigit(u[digit]);
  }

  lemma DoublesAreNumerals(s: string)
    requires IsDouble(s)
    ensures IsNumeral(s)
  {
    ScanKeepsText(s);
    SignReadsBack(Scan(s));
    BodyIsNumeral(Scan(s));
  }

  lemma NumeralsAreDoubles(s: string)
    requires IsNumeral(s)
    ensures IsDouble(s)
  {
    var d, u := Scan(s), Unsigned(s);
    var w := |d.whole|;
    if w < |u| {
      assert DigitOrPoint(u[w]);
      assert u[w] == '.' && d.point && d.fraction == u[w + 1..];
      forall i | 0 <= i < |d.fraction|
        ensures IsDigit(d.fraction[i])
      {
        assert d.fraction[i] == u[w + 1 + i] && d.fraction[i] in u[w + 1..];
        assert DigitOrPoint(u[w + 1 + i]);
      }
      var i :| 0 <= i < |u| && IsDigit(u[i]);
      assert i != w;
    }
  }

  /** isValidDoubleStringFormat accepts exactly the numerals. */
  lemma DoubleLanguage(s: string)
    ensures ParseDouble(s).Some? <==> IsNumeral(s)
  {
    if IsDouble(s) {
      DoublesAreNumerals(s);
    }
    if IsNumeral(s) {
      NumeralsAreDoubles(s);
    }
  }

  lemma NumberOfZero(digits: string)
    requires AllDigits(digits)
    ensures Number(digits + "0") == 10 * Number(digits)
  {
    assert (digits + "0")[..|digits|] == digits;
  }

  /** A zero at the end of the fraction, and a point before it, change nothing; so every number
      is the one that is printed with seven digits. */
  lemma TrailingZeros(d: Decimal)
    requires d.Valid() && |d.fraction| < 7
    ensures var e := d.(point := true, fraction := d.fraction + "0"); e.Valid() && e.Units() == d.Units()
  {
    NumberOfZero(d.fraction);
    assert PowerOfTen(7 - |d.fraction|) == 10 * PowerOfTen(7 - |d.fraction| - 1);
    TimesTen(Number(d.fraction), PowerOfTen(7 - |d.fraction| - 1));
  }

  lemma TimesTen(a: int, b: int)
    ensures (10 * a) * b == a * (10 * b)
  {
  }

  /** Integers are the doubles written without a point that fit 32 bits, and mean the same. */
  lemma ParseIntegerReadsDecimals(s: string, v: int)
    ensures ParseInteger(s) == Some(v) <==>
            && -2_147_483_648 <= v <= 2_147_483_647
            && IsDouble(s) && !Scan(s).point && ParseDouble(s) == Some(v * 10_000_000)
  {
    var d, u := Scan(s), Unsigned(s);
    if IsInteger(s) {
      assert u + "" == u;
      SpanOf(u, "");
      assert d == Decimal(HasMinus(s), u, false, "");
    }
    if IsDouble(s) && !d.point {
      assert d.whole == u;
    }
  }

  /** The parts doubleToString writes. */
  function Printed(v: int): Decimal {
    Decimal(v < 0, Digits(Abs(v) / SCALE), true, PaddedDigits(Abs(v) % SCALE, MAX_FRACTIONAL_DIGITS))
  }

  lemma PrintedValue(v: int)
    ensures Printed(v).Valid() && Printed(v).Units() == v
  {
    var m := Abs(v);
    assert PowerOfTen(4) == 10000;
    assert PowerOfTen(7) == SCALE;
    DigitsRead(m / SCALE);
    PaddedDigitsRead(m % SCALE, MAX_FRACTIONAL_DIGITS);
  }

  lemma DoubleRoundTrip(v: int)
    ensures ParseDouble(DoubleToString(v)) == Some(v)
  {
    PrintedValue(v);
    assert Printed(v).Text() == DoubleToString(v);
    ScanReadsBack(Printed(v));
  }

  /** Printing and parsing an integer undo each other exactly on 32-bit values. */
  lemma IntegerRoundTrip(v: int)
    ensures ParseInteger(IntegerToString(v)) == if INT_MIN <= v <= INT_MAX then Some(v) else None
  {
    var m := Abs(v);
    DigitsRead(m);
    assert Unsigned(IntegerToString(v)) == Digits(m);
  }

  // ----- The scanner

  function SignLength(s: string): nat {
    if HasMinus(s) then 1 else 0
  }

  /** Where the fraction starts when the leading digits end at `i`. */
  function AfterPoint(s: string, i: nat): nat
    requires i <= |s|
  {
    if i < |s| && s[i] == '.' then i + 1 else i
  }

  predicate DigitsFrom(s: string, a: nat) {
    forall k :: a <= k < |s| ==> IsDigit(s[k])
  }

  lemma DigitsOfSuffix(s: string, a: nat)
    requires a <= |s|
    ensures AllDigits(s[a..]) <==> DigitsFrom(s, a)
  {
    assert forall k :: a <= k < |s| ==> s[k] == s[a..][k - a];
  }

  lemma ScanParts(s: string, i: nat)
    requires SignLength(s) <= i <= |s| && (i < |s| ==> !IsDigit(s[i]))
    requires AllDigits(s[SignLength(s)..i])
    ensures Scan(s) == Decimal(HasMinus(s), s[SignLength(s)..i], AfterPoint(s, i) > i, s[AfterPoint(s, i)..])
  {
    var start := SignLength(s);
    assert Unsigned(s) == s[start..] == s[start..i] + s[i..];
    SpanOf(s[start..i], s[i..]);
  }

  /** What the scanner still has to check once it has passed the leading digits. */
  lemma ScanAt(s: string, i: nat)
    requires SignLength(s) <= i <= |s| && (i < |s| ==> !IsDigit(s[i]))
    requires forall k :: SignLength(s) <= k < i ==> IsDigit(s[k])
    ensures var a := AfterPoint(s, i);
            IsDouble(s) <==> DigitsFrom(s, a) && |s| - a <= MAX_FRACTIONAL_DIGITS && (SignLength(s) < i || a < |s|)
  {
    var a := AfterPoint(s, i);
    ScanParts(s, i);
    assert AllDigits(s[a..]) <==> DigitsFrom(s, a) by {
      DigitsOfSuffix(s, a);
    }
  }

  method IsValidDoubleStringFormat(str: string) returns (ok: bool)
    ensures ok <==> IsDouble(str)
  {
    if str == "" {
      return false;
    }
    var i := 0;
    if str[0] == '-' {
      if |str| == 1 {
        return false;
      }
      i := 1;
    }

    var hasLeadingDigits := false;
    while i < |str| && IsDigit(str[i])
      invariant SignLength(str) <= i <= |str|
      invariant forall k :: SignLength(str) <= k < i ==> IsDigit(str[k])
      invariant hasLeadingDigits <==> SignLength(str) < i
    {
      hasLeadingDigits := true;
      i := i + 1;
    }
    ScanAt(str, i);
    ghost var a := AfterPoint(str, i);

    if i < |str| && str[i] == '.' {
      i := i + 1;
    }

    var hasFractionalDigits, fractionalDigitCount := false, 0;
    while i < |str| && IsDigit(str[i])
      invariant a <= i <= |str|
      invariant forall k :: a <= k < i ==> IsDigit(str[k])
      invariant fractionalDigitCount == i - a <= MAX_FRACTIONAL_DIGITS
      invariant hasFractionalDigits <==> a < i
    {
      hasFractionalDigits := true;
      fractionalDigitCount := fractionalDigitCount + 1;
      if fractionalDigitCount > MAX_FRACTIONAL_DIGITS {
        return false;
      }
      i := i + 1;
    }

    if !hasLeadingDigits && !hasFractionalDigits {
      return false;
    }
    if i != |str| {
      return false;
    }
    return true;
  }
}

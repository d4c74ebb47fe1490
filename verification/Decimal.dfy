/** Parsing of decimal numbers (zrtypes.h, ZR_Number::fromDecimalString). Numbers are unbounded
    here; what has to fit into the source's 64-bit integers is stated and proved to fit. */
module Decimals {
  import opened Common
  import opened Streams

  const INT64_MAX: int := 0x7FFF_FFFF_FFFF_FFFF
  const INT64_MIN: int := -0x8000_0000_0000_0000

  predicate InInt64(x: int) { INT64_MIN <= x <= INT64_MAX }

  predicate IsDigit(c: char) { '0' <= c <= '9' }

  predicate AllDigits(s: string) { forall i :: 0 <= i < |s| ==> IsDigit(s[i]) }

  function Pow10(n: nat): (p: nat)
    ensures p >= 1
  {
    if n == 0 then 1 else 10 * Pow10(n - 1)
  }

  function NatOf(s: string): nat
    requires AllDigits(s)
  {
    if s == "" then 0 else 10 * NatOf(s[..|s| - 1]) + (s[|s| - 1] as int - '0' as int)
  }

  // ---- The library functions it calls ----

  function SkipSpaces(s: string): string {
    if s != "" && s[0] == ' ' then SkipSpaces(s[1..]) else s
  }

  function DigitPrefix(s: string): (d: string)
    ensures AllDigits(d)
  {
    if s != "" && IsDigit(s[0]) then [s[0]] + DigitPrefix(s[1..]) else ""
  }

  function Signed(negative: bool, n: nat): int { if negative then 0 - n else n }

  function Clamp(x: int): int {
    if x > INT64_MAX then INT64_MAX else if x < INT64_MIN then INT64_MIN else x
  }

  /** strtoll with base 10: blanks, a sign, as many digits as there are; too large values saturate. */
  function Strtoll(s: string): int {
    var t := SkipSpaces(s);
    if t != "" && t[0] == '-' then Clamp(Signed(true, NatOf(DigitPrefix(t[1..]))))
    else if t != "" && t[0] == '+' then Clamp(NatOf(DigitPrefix(t[1..])))
    else Clamp(NatOf(DigitPrefix(t)))
  }

  // ---- The parser ----

  /** The numerator and denominator handed to the rational; `intPart` and `fracPart` are its
      intermediate values. */
  datatype Parsed = Parsed(numerator: int, denominator: int, intPart: int, fracPart: int)

  function Assembled(sInt: string, sFrac: string, negative: bool): Parsed {
    var factor := Pow10(|sFrac|);
    var intPart := Strtoll(sInt);
    var fracPart := if negative then -Strtoll(sFrac) else Strtoll(sFrac);
    Parsed(intPart * factor + fracPart, factor, intPart, fracPart)
  }

  /** None stands for the exception a string of blanks causes. */
  function FromDecimalString(s: string): Option<Parsed> {
    var trimmed := SkipSpaces(s);
    if trimmed == "" then None
    else
      var delim := if ',' in trimmed then ',' else '.';
      var (sInt, rest) := GetLine(trimmed, delim);
      Some(Assembled(sInt, GetLine(rest, delim).0, trimmed[0] == '-'))
  }

  // ---- What a decimal string means ----

  /** Blanks, an optional minus, digits, and optionally a delimiter followed by digits. */
  datatype Numeral = Numeral(blanks: nat, negative: bool, whole: string, delim: Option<char>, fraction: string)

  predicate WellFormed(n: Numeral) {
    && AllDigits(n.whole) && AllDigits(n.fraction)
    && (n.delim == None ==> n.fraction == "")
    && (n.delim.Some? ==> n.delim.value == '.' || n.delim.value == ',')
    && Core(n) != ""
  }

  function Blanks(n: nat): string { if n == 0 then "" else " " + Blanks(n - 1) }

  function Core(n: Numeral): string {
    (if n.negative then "-" else "") + n.whole + (if n.delim.Some? then [n.delim.value] else "") + n.fraction
  }

  function Text(n: Numeral): string { Blanks(n.blanks) + Core(n) }

  function Magnitude(n: Numeral): nat
    requires AllDigits(n.whole) && AllDigits(n.fraction)
  {
    NatOf(n.whole) * Pow10(|n.fraction|) + NatOf(n.fraction)
  }

  /** The number times 10 to the number of fraction digits: a whole number. */
  function Scaled(n: Numeral): int
    requires AllDigits(n.whole) && AllDigits(n.fraction)
  {
    Signed(n.negative, Magnitude(n))
  }

  // ---- Lemmas about the library functions ----

  lemma {:induction false} NatOfBound(s: string)
    requires AllDigits(s)
    ensures NatOf(s) < Pow10(|s|)
  {
    if s != "" {
      NatOfBound(s[..|s| - 1]);
    }
  }

  lemma {:induction false} DigitPrefixOfDigits(s: string)
    requires AllDigits(s)
    ensures DigitPrefix(s) == s
  {
    if s != "" {
      DigitPrefixOfDigits(s[1..]);
    }
  }

  lemma {:induction false} SkipBlanks(n: nat, s: string)
    requires s == "" || s[0] != ' '
    ensures SkipSpaces(Blanks(n) + s) == s
  {
    if n == 0 {
      assert Blanks(n) + s == s;
    } else {
      SkipBlanks(n - 1, s);
      assert (Blanks(n) + s)[1..] == Blanks(n - 1) + s;
    }
  }

  lemma StrtollReadsDigits(digits: string)
    requires AllDigits(digits)
    ensures Strtoll(digits) == Clamp(NatOf(digits))
  {
    DigitPrefixOfDigits(digits);
  }

  lemma StrtollReadsNegative(digits: string)
    requires AllDigits(digits)
    ensures Strtoll("-" + digits) == Clamp(Signed(true, NatOf(digits)))
  {
    var t := "-" + digits;
    assert t[0] == '-' && t[1..] == digits;
    DigitPrefixOfDigits(digits);
  }

  // ---- The parser is exact ----

  lemma PartsAreFound(n: Numeral)
    requires WellFormed(n)
    ensures FromDecimalString(Text(n)) ==
      Some(Assembled((if n.negative then "-" else "") + n.whole, n.fraction, n.negative))
  {
    var sign := if n.negative then "-" else "";
    assert Core(n)[0] != ' ';
    SkipBlanks(n.blanks, Core(n));
    var delim := if ',' in Core(n) then ',' else '.';
    assert delim !in n.whole && delim !in n.fraction && delim !in sign;
    if n.delim.Some? {
      assert Core(n) == (sign + n.whole) + [n.delim.value] + n.fraction;
      assert Core(n)[|sign + n.whole|] == n.delim.value;
      assert delim == n.delim.value;
      GetLineSplits(sign + n.whole, delim, n.fraction);
    } else {
      assert Core(n) == sign + n.whole;
      GetLineTakesAll(sign + n.whole, delim);
    }
    GetLineTakesAll(n.fraction, delim);
  }

  /** The scaled number fits into 64 bits with its sign, and so does the power of ten. */
  predicate FitsInt64(n: Numeral)
    requires AllDigits(n.whole) && AllDigits(n.fraction)
  {
    InInt64(Scaled(n)) && InInt64(Pow10(|n.fraction|))
  }

  /** What the parser makes of a well-formed numeral, whether or not it fits. */
  lemma ParserComputes(n: Numeral)
    requires WellFormed(n)
    ensures var f := Clamp(NatOf(n.fraction)); var i := Clamp(Signed(n.negative, NatOf(n.whole)));
      var p := Pow10(|n.fraction|);
      FromDecimalString(Text(n)) ==
        Some(Parsed(i * p + (if n.negative then -f else f), p, i, if n.negative then -f else f))
  {
    PartsAreFound(n);
    StrtollReadsDigits(n.fraction);
    if n.negative {
      StrtollReadsNegative(n.whole);
    } else {
      StrtollReadsDigits(n.whole);
      assert "" + n.whole == n.whole;
    }
  }

  lemma ScaledBoundsParts(w: nat, f: nat, p: nat)
    requires f < p
    ensures w <= w * p <= w * p + f && f <= w * p + f
    ensures Signed(true, w) * p == -(w * p)
  {
  }

  /** Every number that fits is parsed exactly, and nothing on the way overflows. */
  lemma ParsingIsExact(n: Numeral)
    requires WellFormed(n) && FitsInt64(n)
    ensures FromDecimalString(Text(n)).Some?
    ensures var r := FromDecimalString(Text(n)).value;
      && r.numerator == Scaled(n) && r.denominator == Pow10(|n.fraction|)
      && InInt64(r.intPart) && InInt64(r.fracPart) && InInt64(r.intPart * r.denominator)
  {
    ParserComputes(n);
    NatOfBound(n.fraction);
    ScaledBoundsParts(NatOf(n.whole), NatOf(n.fraction), Pow10(|n.fraction|));
  }

  /** The parser is exact and free of overflow exactly for the numbers that fit. */
  lemma ExactIffItFits(n: Numeral)
    requires WellFormed(n)
    ensures FromDecimalString(Text(n)).Some?
    ensures var r := FromDecimalString(Text(n)).value;
      FitsInt64(n) <==>
        && r.numerator == Scaled(n) && r.denominator == Pow10(|n.fraction|) && InInt64(r.numerator)
          && InInt64(r.denominator)
        && InInt64(r.intPart) && InInt64(r.fracPart) && InInt64(r.intPart * r.denominator)
  {
    ParserComputes(n);
    if FitsInt64(n) {
      ParsingIsExact(n);
    }
  }

  lemma {:induction false} Pow10Adds(a: nat, b: nat)
    ensures Pow10(a + b) == Pow10(a) * Pow10(b)
  {
    if a > 0 {
      Pow10Adds(a - 1, b);
    }
  }

  lemma {:induction false} Pow10Grows(a: nat, b: nat)
    requires a <= b
    ensures Pow10(a) <= Pow10(b)
  {
    if a < b {
      Pow10Grows(a, b - 1);
    }
  }

  lemma PowersBelow(a: nat, b: nat)
    requires a + b <= 18
    ensures Pow10(a) * Pow10(b) <= INT64_MAX && Pow10(b) <= INT64_MAX
  {
    Pow10Adds(a, b);
    Pow10Grows(a + b, 18);
    Pow10Grows(b, 18);
    Pow10Of18();
  }

  lemma MagnitudeIsSmall(n: Numeral)
    requires AllDigits(n.whole) && AllDigits(n.fraction) && |n.whole| + |n.fraction| <= 18
    ensures Magnitude(n) <= INT64_MAX
  {
    NatOfBound(n.whole);
    NatOfBound(n.fraction);
    PowersBelow(|n.whole|, |n.fraction|);
    ScaledBelow(NatOf(n.whole), NatOf(n.fraction), Pow10(|n.whole|), Pow10(|n.fraction|));
  }

  /** Up to 18 digits everything fits. */
  lemma EighteenDigitsFit(n: Numeral)
    requires WellFormed(n) && |n.whole| + |n.fraction| <= 18
    ensures FitsInt64(n)
  {
    MagnitudeIsSmall(n);
    Pow10Grows(|n.fraction|, 18);
    Pow10Of18();
  }

  lemma Pow10Of18()
    ensures Pow10(18) == 1_000_000_000_000_000_000
  {
    assert Pow10(6) == 1_000_000;
    Pow10Adds(6, 6);
    Pow10Adds(6, 12);
  }

  lemma ScaledBelow(w: nat, f: nat, q: nat, p: nat)
    requires w < q && f < p
    ensures w * p + f < q * p
  {
    assert (w + 1) * p <= q * p;
  }

  // ---- Fixed-point printing ----

  /** The last `places` decimal digits of n. */
  function Digits(n: nat, places: nat): (d: string)
    ensures |d| == places && AllDigits(d)
  {
    if places == 0 then "" else Digits(n / 10, places - 1) + [(n % 10 + '0' as int) as char]
  }

  lemma {:induction false} DigitsRead(n: nat, places: nat)
    requires n < Pow10(places)
    ensures NatOf(Digits(n, places)) == n
  {
    if places > 0 {
      DigitsRead(n / 10, places - 1);
      var d := Digits(n, places);
      assert d[..|d| - 1] == Digits(n / 10, places - 1);
    }
  }

  function Abs(m: int): nat { if m < 0 then 0 - m else m }

  function Quotient(n: nat, p: nat): nat
    requires p > 0
  {
    n / p
  }

  function Remainder(n: nat, p: nat): nat
    requires p > 0
  {
    n % p
  }

  lemma QuotientBound(n: nat, q: nat, p: nat)
    requires p > 0 && n < q * p
    ensures Quotient(n, p) < q && Remainder(n, p) < p && Quotient(n, p) * p + Remainder(n, p) == n
  {
  }

  /** m over 10 to `places`, printed with a fixed number of digits on both sides of the point. */
  function Printed(m: int, width: nat, places: nat): Numeral {
    var n, p := Abs(m), Pow10(places);
    Numeral(0, m < 0, Digits(Quotient(n, p), width), Some('.'), Digits(Remainder(n, p), places))
  }

  lemma PrintedMeans(m: int, width: nat, places: nat)
    requires Abs(m) < Pow10(width + places)
    ensures WellFormed(Printed(m, width, places)) && Scaled(Printed(m, width, places)) == m
  {
    var n, p := Abs(m), Pow10(places);
    Pow10Adds(width, places);
    QuotientBound(n, Pow10(width), p);
    DigitsRead(Quotient(n, p), width);
    DigitsRead(Remainder(n, p), places);
    assert '.' in Core(Printed(m, width, places));
  }

  /** Parsing inverts printing: the very numerator and denominator come back. */
  lemma ParsingInvertsPrinting(m: int, width: nat, places: nat)
    requires width + places <= 18 && Abs(m) < Pow10(width + places)
    ensures var r := FromDecimalString(Text(Printed(m, width, places)));
      r.Some? && r.value.numerator == m && r.value.denominator == Pow10(places)
  {
    PrintedMeans(m, width, places);
    EighteenDigitsFit(Printed(m, width, places));
    ParsingIsExact(Printed(m, width, places));
  }
}

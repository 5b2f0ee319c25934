/** Decimal numbers as the generator's commands print them, and reading them back. */
module Decimals {
  // ---------------------------------------------------------------- digits

  predicate IsDigit(c: char) {
    '0' <= c <= '9'
  }

  predicate AllDigits(s: string) {
    forall i :: 0 <= i < |s| ==> IsDigit(s[i])
  }

  function DigitValue(c: char): (d: int)
    ensures IsDigit(c) ==> 0 <= d < 10
  {
    c as int - '0' as int
  }

  function DigitOf(d: nat): (c: char)
    requires d < 10
    ensures IsDigit(c) && DigitValue(c) == d
  {
    '0' + d as char
  }

  function Power10(k: nat): (p: nat)
    ensures p > 0
  {
    if k == 0 then 1 else 10 * Power10(k - 1)
  }

  lemma Powers()
    ensures Power10(2) == 100 && Power10(3) == 1000 && Power10(6) == 1000000 && Power10(8) == 100000000
  {
  }

  /** The number a string of digits stands for. */
  function ReadDigits(s: string): (n: int)
    ensures AllDigits(s) ==> n >= 0
  {
    if s == "" then 0 else 10 * ReadDigits(s[..|s| - 1]) + DigitValue(s[|s| - 1])
  }

  /** `n` in as few digits as it takes. */
  function Digits(n: nat): (s: string)
    ensures s != "" && AllDigits(s) && ReadDigits(s) == n
  {
    if n < 10 then
      assert [DigitOf(n)][..0] == "";
      [DigitOf(n)]
    else
      var s := Digits(n / 10) + [DigitOf(n % 10)];
      assert s[..|s| - 1] == Digits(n / 10);
      s
  }

  /** `n` in exactly `width` digits. */
  function Padded(n: nat, width: nat): (s: string)
    requires n < Power10(width)
    ensures |s| == width && AllDigits(s) && ReadDigits(s) == n
  {
    if width == 0 then ""
    else
      var s := Padded(n / 10, width - 1) + [DigitOf(n % 10)];
      assert s[..|s| - 1] == Padded(n / 10, width - 1);
      s
  }

  lemma {:induction false} DigitsAreFew(n: nat, k: nat)
    requires 0 < k && n < Power10(k)
    ensures |Digits(n)| <= k
  {
    if n >= 10 {
      assert k > 1 by {
        assert Power10(1) == 10 * Power10(0);
      }
      DigitsAreFew(n / 10, k - 1);
    }
  }

  /** Zeros in front of digits up to a width, as a format with a zero fill puts them. */
  function FillZeros(s: string, width: nat): (t: string)
    ensures |t| == if |s| < width then width else |s|
    ensures AllDigits(s) ==> AllDigits(t)
    decreases width - |s|
  {
    if |s| >= width then s else FillZeros("0" + s, width)
  }

  lemma {:induction false} LeadingZero(s: string)
    ensures ReadDigits("0" + s) == ReadDigits(s)
  {
    if s == "" {
      assert "0"[..0] == "";
    } else {
      var t := "0" + s;
      assert t[..|t| - 1] == "0" + s[..|s| - 1];
      LeadingZero(s[..|s| - 1]);
    }
  }

  lemma {:induction false} FillKeepsValue(s: string, width: nat)
    ensures ReadDigits(FillZeros(s, width)) == ReadDigits(s)
    decreases width - |s|
  {
    if |s| < width {
      LeadingZero(s);
      FillKeepsValue("0" + s, width);
    }
  }

  /** A zero fill up to a width is a zero fill of what stands before a tail. */
  lemma {:induction false} FillBefore(s: string, tail: string, width: nat)
    requires |tail| <= width
    ensures FillZeros(s + tail, width) == FillZeros(s, width - |tail|) + tail
    decreases width - |s|
  {
    if |s + tail| < width {
      assert "0" + (s + tail) == ("0" + s) + tail;
      FillBefore("0" + s, tail, width);
    }
  }

  // ---------------------------------------------------------------- decimals

  /** Where the first point is, or the length. */
  function PointAt(s: string): (i: nat)
    ensures i <= |s|
    ensures i < |s| ==> s[i] == '.'
  {
    if s == "" || s[0] == '.' then 0 else 1 + PointAt(s[1..])
  }

  /** Digits, and after a point at least one more. */
  predicate IsUnsigned(s: string) {
    var i := PointAt(s);
    && 0 < i && AllDigits(s[..i])
    && (i == |s| || (i + 1 < |s| && AllDigits(s[i + 1..])))
  }

  predicate IsDecimal(s: string) {
    IsUnsigned(s) || (s != "" && s[0] == '-' && IsUnsigned(s[1..]))
  }

  /** Digits with at most one point among them, which is neither first nor last. */
  lemma UnsignedIff(s: string)
    ensures IsUnsigned(s)
      <==> (s != "" && AllDigits(s))
           || exists i :: 0 < i < |s| - 1 && s[i] == '.' && AllDigits(s[..i]) && AllDigits(s[i + 1..])
  {
    if s != "" && AllDigits(s) {
      PointAfter(s, "");
      assert s + "" == s && s[..|s|] == s;
    } else if i :| 0 < i < |s| - 1 && s[i] == '.' && AllDigits(s[..i]) && AllDigits(s[i + 1..]) {
      PointAfter(s[..i], s[i..]);
      assert s[..i] + s[i..] == s;
    } else {
      assert s[..|s|] == s;
    }
  }

  function ReadUnsigned(s: string): real {
    var i := PointAt(s);
    if i == |s| then ReadDigits(s) as real
    else ReadDigits(s[..i]) as real + ReadDigits(s[i + 1..]) as real / Power10(|s| - i - 1) as real
  }

  /** The number a decimal stands for. */
  function ReadDecimal(s: string): real {
    if s != "" && s[0] == '-' then -ReadUnsigned(s[1..]) else ReadUnsigned(s)
  }

  /** A decimal from its sign, its whole digits and its fraction digits. */
  function Compose(negative: bool, whole: string, fraction: string): string {
    (if negative then "-" else "") + (whole + if fraction == "" then "" else "." + fraction)
  }

  lemma {:induction false} PointAfter(whole: string, rest: string)
    requires AllDigits(whole) && (rest == "" || rest[0] == '.')
    ensures PointAt(whole + rest) == |whole|
  {
    if whole == "" {
      assert whole + rest == rest;
    } else {
      assert (whole + rest)[1..] == whole[1..] + rest;
      PointAfter(whole[1..], rest);
    }
  }

  function Body(whole: string, fraction: string): string {
    whole + if fraction == "" then "" else "." + fraction
  }

  function Size(whole: string, fraction: string): real {
    ReadDigits(whole) as real + ReadDigits(fraction) as real / Power10(|fraction|) as real
  }

  lemma ReadBody(whole: string, fraction: string)
    requires whole != "" && AllDigits(whole) && AllDigits(fraction)
    ensures IsUnsigned(Body(whole, fraction)) && ReadUnsigned(Body(whole, fraction)) == Size(whole, fraction)
    ensures IsDigit(Body(whole, fraction)[0])
  {
    hide ReadDigits, Power10, PointAt;
    var rest := if fraction == "" then "" else "." + fraction;
    PointAfter(whole, rest);
    assert (whole + rest)[..|whole|] == whole;
    if fraction == "" {
      NoFraction();
      assert whole + rest == whole;
    } else {
      assert (whole + rest)[|whole| + 1..] == fraction;
    }
  }

  lemma NoFraction()
    ensures ReadDigits("") == 0 && Power10(0) == 1
  {
  }

  lemma ReadComposed(negative: bool, whole: string, fraction: string)
    requires whole != "" && AllDigits(whole) && AllDigits(fraction)
    ensures var s := Compose(negative, whole, fraction);
      && IsDecimal(s)
      && (!negative ==> IsUnsigned(s))
      && (s[0] == '-' <==> negative)
      && ReadDecimal(s) == if negative then -Size(whole, fraction) else Size(whole, fraction)
  {
    hide IsUnsigned, ReadUnsigned, Size, PointAt;
    var body := Body(whole, fraction);
    ReadBody(whole, fraction);
    if negative {
      assert Compose(negative, whole, fraction) == "-" + body;
      assert ("-" + body)[1..] == body;
    } else {
      assert Compose(negative, whole, fraction) == body;
    }
  }

  function Quotient(n: nat, unit: nat): nat
    requires unit > 0
  {
    n / unit
  }

  function WholePart(n: nat, places: nat): nat {
    Quotient(n, Power10(places))
  }

  function FractionPart(n: nat, places: nat): (f: nat)
    ensures f < Power10(places)
  {
    n % Power10(places)
  }

  /** `n` units of the last of `places` decimal places. */
  function Print(negative: bool, n: nat, places: nat): string {
    Compose(negative, Digits(WholePart(n, places)), Padded(FractionPart(n, places), places))
  }

  /** The number of that many units. */
  function InUnits(n: nat, places: nat): real {
    n as real / Power10(places) as real
  }

  lemma SplitUnits(n: nat, unit: nat)
    requires unit > 0
    ensures (n / unit) as real + (n % unit) as real / unit as real == n as real / unit as real
  {
  }

  lemma SizeOfPrinted(n: nat, places: nat)
    ensures Size(Digits(WholePart(n, places)), Padded(FractionPart(n, places), places)) == InUnits(n, places)
  {
    SplitUnits(n, Power10(places));
    hide Digits, Padded, ReadDigits, Power10;
  }

  /** Reading a printed number back gives the number of units. */
  lemma ReadPrinted(negative: bool, n: nat, places: nat)
    ensures IsDecimal(Print(negative, n, places))
    ensures !negative ==> IsUnsigned(Print(negative, n, places))
    ensures Print(negative, n, places)[0] == '-' <==> negative
    ensures ReadDecimal(Print(negative, n, places)) == if negative then -InUnits(n, places) else InUnits(n, places)
  {
    hide IsDecimal, IsUnsigned, ReadDecimal, Compose, Size, InUnits, WholePart, FractionPart;
    ReadComposed(negative, Digits(WholePart(n, places)), Padded(FractionPart(n, places), places));
    SizeOfPrinted(n, places);
  }

  // ---------------------------------------------------------------- trailing zeros

  /** `rstrip` of one character. */
  function StripRight(s: string, c: char): string {
    if s != "" && s[|s| - 1] == c then StripRight(s[..|s| - 1], c) else s
  }

  /** Stripping zeros strips those of the fraction, and stops at the point. */
  lemma {:induction false} StripFraction(before: string, fraction: string)
    ensures StripRight(before + "." + fraction, '0') == before + "." + StripRight(fraction, '0')
  {
    var s := before + "." + fraction;
    if fraction != "" && fraction[|fraction| - 1] == '0' {
      assert s[..|s| - 1] == before + "." + fraction[..|fraction| - 1];
      StripFraction(before, fraction[..|fraction| - 1]);
    }
  }

  /** Then stripping the point strips it exactly when no fraction is left. */
  lemma StripPoint(before: string, fraction: string)
    requires before != "" && IsDigit(before[|before| - 1]) && AllDigits(fraction)
    ensures StripRight(before + "." + fraction, '.') == if fraction == "" then before else before + "." + fraction
  {
  }

  lemma {:induction false} StripKeepsValue(fraction: string)
    requires AllDigits(fraction)
    ensures var kept := StripRight(fraction, '0');
      && AllDigits(kept)
      && ReadDigits(kept) as real / Power10(|kept|) as real
      == ReadDigits(fraction) as real / Power10(|fraction|) as real
  {
    if fraction != "" && fraction[|fraction| - 1] == '0' {
      var shorter := fraction[..|fraction| - 1];
      StripKeepsValue(shorter);
      CancelTen(ReadDigits(shorter) as real, Power10(|shorter|) as real);
    }
  }

  lemma CancelTen(a: real, b: real)
    requires b > 0.0
    ensures (10.0 * a) / (10.0 * b) == a / b
  {
  }

  /** A printed number without the zeros at the end of its fraction, and without a bare point. */
  function Shorten(s: string): string {
    StripRight(StripRight(s, '0'), '.')
  }

  lemma ShortenParts(negative: bool, whole: string, fraction: string)
    requires whole != "" && AllDigits(whole) && fraction != "" && AllDigits(fraction)
    ensures Shorten(Compose(negative, whole, fraction)) == Compose(negative, whole, StripRight(fraction, '0'))
    ensures AllDigits(StripRight(fraction, '0'))
  {
    hide StripRight, ReadDigits;
    var before := (if negative then "-" else "") + whole;
    ComposeBefore(negative, whole, fraction);
    ComposeBefore(negative, whole, StripRight(fraction, '0'));
    StripFraction(before, fraction);
    StripKeepsValue(fraction);
    StripPoint(before, StripRight(fraction, '0'));
  }

  /** Shortening a printed number leaves a decimal with the same sign and value. */
  lemma ReadShortened(negative: bool, n: nat, places: nat)
    requires places > 0
    ensures var s := Shorten(Print(negative, n, places));
      && IsDecimal(s)
      && (!negative ==> IsUnsigned(s))
      && (s[0] == '-' <==> negative)
      && ReadDecimal(s) == ReadDecimal(Print(negative, n, places))
  {
    hide IsDecimal, IsUnsigned, ReadDecimal, Compose, StripRight, ReadDigits, Shorten, WholePart, FractionPart, Power10;
    var whole, fraction := Digits(WholePart(n, places)), Padded(FractionPart(n, places), places);
    ShortenParts(negative, whole, fraction);
    StripKeepsValue(fraction);
    ReadComposed(negative, whole, StripRight(fraction, '0'));
    ReadComposed(negative, whole, fraction);
  }

  /** What is stripped is the character, and all of it at the end. */
  lemma {:induction false} StripRightIs(s: string, c: char)
    ensures var kept := StripRight(s, c);
      && kept <= s && (forall i :: |kept| <= i < |s| ==> s[i] == c)
      && (kept != "" ==> kept[|kept| - 1] != c)
  {
    if s != "" && s[|s| - 1] == c {
      StripRightIs(s[..|s| - 1], c);
    }
  }

  /** No digit of a shortened number can be left out: it has no point, or does not end in a zero. */
  lemma ShortenedIsShort(negative: bool, n: nat, places: nat)
    requires places > 0
    ensures var s := Shorten(Print(negative, n, places)); s != "" && ('.' in s ==> s[|s| - 1] != '0')
  {
    hide StripRight, ReadDigits, Shorten, WholePart, FractionPart, Power10;
    var whole, fraction := Digits(WholePart(n, places)), Padded(FractionPart(n, places), places);
    ShortenParts(negative, whole, fraction);
    StripRightIs(fraction, '0');
    var kept := StripRight(fraction, '0');
    if kept != "" {
      var s := Compose(negative, whole, kept);
      assert s[|s| - 1] == kept[|kept| - 1];
    }
  }

  lemma ComposeBefore(negative: bool, whole: string, fraction: string)
    ensures var before := (if negative then "-" else "") + whole;
      Compose(negative, whole, fraction) == if fraction == "" then before else before + "." + fraction
  {
  }
}

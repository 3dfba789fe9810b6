/** The numbers the programs print and scan: %d, %lld, %x and %f text. */
module Text {
  import opened Bytes

  function DigitChar(d: nat): char
    requires d < 16
  {
    "0123456789abcdef"[d]
  }

  predicate IsDigit(c: char, base: nat) {
    ('0' <= c <= '9' && c as int - '0' as int < base) ||
    ('a' <= c <= 'f' && c as int - 'a' as int + 10 < base) ||
    ('A' <= c <= 'F' && c as int - 'A' as int + 10 < base)
  }

  function DigitValue(c: char): nat {
    if '0' <= c <= '9' then c as int - '0' as int
    else if 'a' <= c <= 'f' then c as int - 'a' as int + 10
    else if 'A' <= c <= 'F' then c as int - 'A' as int + 10
    else 0
  }

  // Text that is one line and one C string.
  predicate Clean(s: string) {
    forall i :: 0 <= i < |s| ==> s[i] != '\n' && s[i] != '\0'
  }

  // The two bases the programs use.
  predicate IsBase(base: nat) {
    base == 10 || base == 16
  }

  function Quot(n: nat, base: nat): nat
    requires IsBase(base)
  {
    if base == 10 then n / 10 else n / 16
  }

  function Rem(n: nat, base: nat): nat
    requires IsBase(base)
  {
    if base == 10 then n % 10 else n % 16
  }

  function Shift(v: nat, base: nat): nat
    requires IsBase(base)
  {
    if base == 10 then 10 * v else 16 * v
  }

  // Unpadded digits of `n`, most significant first (%d for base 10, %x for base 16).
  function Digits(n: nat, base: nat): string
    requires IsBase(base)
    decreases n
  {
    if n < base then [DigitChar(n)] else Digits(Quot(n, base), base) + [DigitChar(Rem(n, base))]
  }

  predicate AllDigits(s: string, base: nat) {
    forall i :: 0 <= i < |s| ==> IsDigit(s[i], base)
  }

  function ValueOf(s: string, base: nat): nat
    requires IsBase(base)
  {
    if s == [] then 0
    else Shift(ValueOf(s[..|s| - 1], base), base) + DigitValue(s[|s| - 1])
  }

  lemma DigitCharIsDigit(d: nat, base: nat)
    requires d < base <= 16
    ensures IsDigit(DigitChar(d), base) && DigitValue(DigitChar(d)) == d
  {
    var c := DigitChar(d);
    if d < 10 {
      assert c as int == '0' as int + d;
    } else {
      assert c as int == 'a' as int + d - 10;
    }
  }

  lemma ValueSnoc(s: string, c: char, base: nat)
    requires IsBase(base)
    ensures ValueOf(s + [c], base) == Shift(ValueOf(s, base), base) + DigitValue(c)
  {
    assert (s + [c])[..|s|] == s;
  }

  /** Printing and scanning a natural number are inverse, in both bases. */
  lemma {:induction false} DigitsRoundTrip(n: nat, base: nat)
    requires IsBase(base)
    ensures var s := Digits(n, base);
            |s| >= 1 && AllDigits(s, base) && ValueOf(s, base) == n
    decreases n
  {
    if n < base {
      DigitCharIsDigit(n, base);
      ValueSnoc([], DigitChar(n), base);
      assert [] + [DigitChar(n)] == Digits(n, base);
    } else {
      DigitCharIsDigit(Rem(n, base), base);
      DigitsRoundTrip(Quot(n, base), base);
      ValueSnoc(Digits(Quot(n, base), base), DigitChar(Rem(n, base)), base);
    }
  }

  function Power(base: nat, e: nat): nat
    requires IsBase(base)
  {
    if e == 0 then 1 else Shift(Power(base, e - 1), base)
  }

  lemma {:induction false} DigitsLength(n: nat, base: nat, e: nat)
    requires IsBase(base) && e >= 1 && n < Power(base, e)
    ensures |Digits(n, base)| <= e
    decreases e
  {
    if n >= base {
      assert Power(base, 1) == Shift(Power(base, 0), base);
      DigitsLength(Quot(n, base), base, e - 1);
    }
  }

  predicate IsLowerDigit(c: char) {
    '0' <= c <= '9' || 'a' <= c <= 'f'
  }

  /** The digits printed are lower case and not padded. */
  lemma {:induction false} DigitsPlain(n: nat, base: nat)
    requires IsBase(base)
    ensures var s := Digits(n, base);
            |s| >= 1 && (s[0] == '0' ==> n == 0 && s == "0") && forall i :: 0 <= i < |s| ==> IsLowerDigit(s[i])
    decreases n
  {
    if n < base {
      LowerDigit(n);
    } else {
      DigitsPlain(Quot(n, base), base);
      LowerDigit(Rem(n, base));
    }
  }

  lemma LowerDigit(d: nat)
    requires d < 16
    ensures IsLowerDigit(DigitChar(d)) && (DigitChar(d) == '0' <==> d == 0)
  {
    DigitCharIsDigit(d, 16);
  }

  // The same digits in upper case.
  function Upper(c: char): char {
    match c
    case 'a' => 'A'
    case 'b' => 'B'
    case 'c' => 'C'
    case 'd' => 'D'
    case 'e' => 'E'
    case 'f' => 'F'
    case _ => c
  }

  function UpperText(s: string): string {
    if s == "" then "" else UpperText(s[..|s| - 1]) + [Upper(s[|s| - 1])]
  }

  /** Reading does not tell upper case from lower case. */
  lemma {:induction false} UpperValue(s: string)
    requires AllDigits(s, 16)
    ensures |UpperText(s)| == |s| && AllDigits(UpperText(s), 16) && ValueOf(UpperText(s), 16) == ValueOf(s, 16)
  {
    if s != "" {
      var n := |s| - 1;
      UpperValue(s[..n]);
      ValueSnoc(UpperText(s[..n]), Upper(s[n]), 16);
    }
  }

  function Magnitude(n: int): nat {
    if n < 0 then -n else n
  }

  function Negate(negative: bool, n: int): int {
    if negative then -n else n
  }

  // %lld and %d.
  function IntText(n: int): string {
    if n < 0 then "-" + Digits(Magnitude(n), 10) else Digits(Magnitude(n), 10)
  }

  // Length of the longest prefix of digits.
  function DigitRun(s: string, base: nat): (r: nat)
    ensures r <= |s|
  {
    if s != [] && IsDigit(s[0], base) then 1 + DigitRun(s[1..], base) else 0
  }

  // What strtol-style scanning of a decimal integer yields: the value and the unread rest.
  function ScanNat(s: string): Option<(nat, string)> {
    var r := DigitRun(s, 10);
    if r == 0 then None else Some((ValueOf(s[..r], 10), s[r..]))
  }

  function ScanInt(s: string): Option<(int, string)> {
    var signed := s != [] && (s[0] == '-' || s[0] == '+');
    match ScanNat(if signed then s[1..] else s)
    case None => None
    case Some((v, rest)) => Some((Negate(signed && s[0] == '-', v), rest))
  }

  // isspace in the C locale.
  predicate IsSpace(c: char) {
    c == ' ' || c == '\t' || c == '\n' || c == '\r' || c == '\U{0B}' || c == '\U{0C}'
  }

  // What strtol, strtoul and sscanf pass over in front of a number.
  function SkipSpaces(s: string): string {
    if s != "" && IsSpace(s[0]) then SkipSpaces(s[1..]) else s
  }

  lemma {:induction false} SkipBlanks(blanks: string, s: string)
    requires (forall i :: 0 <= i < |blanks| ==> IsSpace(blanks[i])) && (s == "" || !IsSpace(s[0]))
    ensures SkipSpaces(blanks + s) == s
  {
    if blanks == "" {
      assert blanks + s == s;
    } else {
      assert (blanks + s)[1..] == blanks[1..] + s;
      SkipBlanks(blanks[1..], s);
    }
  }

  lemma {:induction false} DigitRunOf(s: string, rest: string, base: nat)
    requires AllDigits(s, base) && (rest == [] || !IsDigit(rest[0], base))
    ensures DigitRun(s + rest, base) == |s|
  {
    if s == [] {
      assert s + rest == rest;
    } else {
      assert (s + rest)[1..] == s[1..] + rest;
      DigitRunOf(s[1..], rest, base);
    }
  }

  lemma ScanDigits(d: string, rest: string)
    requires |d| >= 1 && AllDigits(d, 10) && (rest == [] || !IsDigit(rest[0], 10))
    ensures ScanNat(d + rest) == Some((ValueOf(d, 10), rest))
  {
    DigitRunOf(d, rest, 10);
    assert (d + rest)[..|d|] == d && (d + rest)[|d|..] == rest;
  }

  lemma ScanPositive(d: string, rest: string)
    requires |d| >= 1 && AllDigits(d, 10) && (rest == [] || !IsDigit(rest[0], 10))
    ensures ScanInt(d + rest) == Some((ValueOf(d, 10), rest))
  {
    ScanDigits(d, rest);
    assert (d + rest)[0] == d[0] && IsDigit(d[0], 10);
  }

  lemma ScanNegative(d: string, rest: string)
    requires |d| >= 1 && AllDigits(d, 10) && (rest == [] || !IsDigit(rest[0], 10))
    ensures ScanInt(("-" + d) + rest) == Some((Negate(true, ValueOf(d, 10)), rest))
  {
    ScanDigits(d, rest);
    DropMinus(d, rest);
  }

  lemma DropMinus(d: string, rest: string)
    ensures (("-" + d) + rest)[0] == '-' && (("-" + d) + rest)[1..] == d + rest
  {
  }

  lemma ScanIntText(n: int, rest: string)
    requires rest == [] || !IsDigit(rest[0], 10)
    ensures ScanInt(IntText(n) + rest) == Some((n, rest))
  {
    DigitsRoundTrip(Magnitude(n), 10);
    if n < 0 {
      ScanNegative(Digits(Magnitude(n), 10), rest);
    } else {
      ScanPositive(Digits(n, 10), rest);
    }
  }

  // ---- %f ----

  function Pad(n: nat, width: nat): string {
    if width == 0 then "" else Pad(n / 10, width - 1) + [DigitChar(n % 10)]
  }

  // The six-decimal text of `micros` millionths.
  function FixedText(negative: bool, micros: nat): string {
    if negative then "-" + UnsignedText(micros) else UnsignedText(micros)
  }

  function UnsignedText(micros: nat): string {
    Digits(micros / 1_000_000, 10) + ("." + Pad(micros % 1_000_000, 6))
  }

  function Abs(r: real): real {
    if r < 0.0 then -r else r
  }

  ghost predicate Nearest(r: real, k: nat) {
    -0.5 <= Abs(r) * 1_000_000.0 - k as real <= 0.5
  }

  /** `text` is what %f may print for the real `r`: the magnitude rounded to a nearest millionth
      (either neighbour on a tie), with a minus sign whenever `r` is negative. */
  ghost predicate PrintsAs(r: real, text: string) {
    exists k: nat :: Nearest(r, k) && text == FixedText(r < 0.0, k)
  }

  // v/scale in millionths.
  function InMicros(v: int, scale: nat): int
    requires scale == 10 || scale == 100
  {
    if scale == 10 then 100_000 * v else 10_000 * v
  }

  function Micros(value: int32, scale: nat): nat
    requires scale == 10 || scale == 100
  {
    InMicros(Magnitude(value), scale)
  }

  // The text of value/scale computed in integers: the two scales divide a million.
  function MeasurementText(value: int32, scale: nat): string
    requires scale == 10 || scale == 100
  {
    FixedText(value < 0, Micros(value, scale))
  }

  // Reads a six-decimal text back, in millionths.
  function ReadUnsigned(s: string): Option<nat> {
    match ScanNat(s)
    case None => None
    case Some((whole, rest)) =>
      if |rest| == 7 && rest[0] == '.' && AllDigits(rest[1..], 10)
      then Some(whole * 1_000_000 + ValueOf(rest[1..], 10))
      else None
  }

  function ReadFixed(s: string): Option<int> {
    var negative := s != [] && s[0] == '-';
    match ReadUnsigned(if negative then s[1..] else s)
    case None => None
    case Some(m) => Some(Negate(negative, m))
  }

  lemma {:induction false} PadValue(n: nat, width: nat)
    requires n < Power(10, width)
    ensures |Pad(n, width)| == width && AllDigits(Pad(n, width), 10) && ValueOf(Pad(n, width), 10) == n
  {
    if width > 0 {
      PadValue(n / 10, width - 1);
      DigitCharIsDigit(n % 10, 10);
      ValueSnoc(Pad(n / 10, width - 1), DigitChar(n % 10), 10);
    }
  }

  lemma Million()
    ensures Power(10, 6) == 1_000_000
    ensures Power(10, 9) == 1_000_000_000
  {
    assert Power(10, 3) == 1_000;
    assert Power(10, 6) == 1_000_000;
  }

  lemma ReadScanned(s: string, whole: nat, tail: string)
    requires ScanNat(s) == Some((whole, tail))
    requires |tail| == 7 && tail[0] == '.' && AllDigits(tail[1..], 10)
    ensures ReadUnsigned(s) == Some(whole * 1_000_000 + ValueOf(tail[1..], 10))
  {
  }

  lemma ReadParts(whole: string, tail: string)
    requires |whole| >= 1 && AllDigits(whole, 10)
    requires |tail| == 7 && tail[0] == '.' && AllDigits(tail[1..], 10)
    ensures ReadUnsigned(whole + tail) == Some(ValueOf(whole, 10) * 1_000_000 + ValueOf(tail[1..], 10))
  {
    ScanWhole(whole, tail);
    ReadScanned(whole + tail, ValueOf(whole, 10), tail);
  }

  lemma ScanWhole(whole: string, tail: string)
    requires |whole| >= 1 && AllDigits(whole, 10) && tail != "" && tail[0] == '.'
    ensures ScanNat(whole + tail) == Some((ValueOf(whole, 10), tail))
  {
    ScanDigits(whole, tail);
  }

  lemma FirstDigit(whole: string, tail: string)
    requires |whole| >= 1 && AllDigits(whole, 10)
    ensures IsDigit((whole + tail)[0], 10)
  {
    assert (whole + tail)[0] == whole[0];
  }

  lemma DotTail(frac: string)
    ensures ("." + frac)[0] == '.' && ("." + frac)[1..] == frac
  {
  }

  lemma ReadUnsignedText(micros: nat)
    ensures var body := UnsignedText(micros);
            body != [] && IsDigit(body[0], 10) && ReadUnsigned(body) == Some(micros)
  {
    DigitsRoundTrip(micros / 1_000_000, 10);
    Million();
    PadValue(micros % 1_000_000, 6);
    DotTail(Pad(micros % 1_000_000, 6));
    ReadParts(Digits(micros / 1_000_000, 10), "." + Pad(micros % 1_000_000, 6));
    FirstDigit(Digits(micros / 1_000_000, 10), "." + Pad(micros % 1_000_000, 6));
  }

  lemma ReadFixedText(negative: bool, micros: nat)
    ensures ReadFixed(FixedText(negative, micros)) == Some(Negate(negative, micros))
  {
    ReadUnsignedText(micros);
    assert ("-" + UnsignedText(micros))[1..] == UnsignedText(micros);
  }

  lemma MicrosOfQuotient(value: int32, scale: nat)
    requires scale == 10 || scale == 100
    ensures Abs(value as real / scale as real) * 1_000_000.0 == Micros(value, scale) as real
    ensures value != 0 ==> Abs(value as real / scale as real) >= 0.01
    ensures value as real / scale as real < 0.0 <==> value < 0
  {
    if scale == 10 {
      assert value as real / 10.0 * 1_000_000.0 == value as real * 100_000.0;
    } else {
      assert value as real / 100.0 * 1_000_000.0 == value as real * 10_000.0;
    }
  }

  lemma UniqueNearest(r: real, q: real, exact: nat, k: nat)
    requires Abs(r - q) < 0.0000005 && Nearest(r, k)
    requires Abs(q) * 1_000_000.0 == exact as real
    ensures k == exact
  {
    assert Abs(Abs(r) - Abs(q)) <= Abs(r - q);
    assert -0.5 < Abs(r) * 1_000_000.0 - exact as real < 0.5;
  }

  /** %f applied to any real strictly within half a millionth of value/scale prints exactly the
      integer-computed text, unless the value is zero and the real is negative. */
  lemma FixedPointExact(value: int32, scale: nat, r: real, text: string)
    requires scale == 10 || scale == 100
    requires Abs(r - value as real / scale as real) < 0.0000005
    requires PrintsAs(r, text)
    ensures text == MeasurementText(value, scale) <==> !(value == 0 && r < 0.0)
  {
    var k: nat :| Nearest(r, k) && text == FixedText(r < 0.0, k);
    var q := value as real / scale as real;
    MicrosOfQuotient(value, scale);
    UniqueNearest(r, q, Micros(value, scale), k);
    if value == 0 && r < 0.0 {
      SignShows(0);
    } else {
      assert r < 0.0 <==> value < 0;
    }
  }

  lemma SignShows(micros: nat)
    ensures FixedText(true, micros) != FixedText(false, micros)
  {
    assert |FixedText(true, micros)| == |FixedText(false, micros)| + 1;
  }

  /** `quotient` is a result that a correctly rounded double division may return: its relative
      error is at most 2^-53. */
  ghost predicate IsRoundedQuotient(value: int32, scale: nat, quotient: real)
    requires scale == 10 || scale == 100
  {
    Abs(quotient - value as real / scale as real) <= Abs(value as real / scale as real) / 9007199254740992.0
  }

  lemma DivisionError(value: int32, scale: nat, quotient: real)
    requires scale == 10 || scale == 100
    requires IsRoundedQuotient(value, scale, quotient)
    ensures Abs(quotient - value as real / scale as real) < 0.0000005
    ensures value == 0 ==> quotient == 0.0
  {
    var q := value as real / scale as real;
    if scale == 10 {
      assert Abs(q) <= 214748364.8;
    } else {
      assert Abs(q) <= 21474836.48;
    }
    assert Abs(q) / 9007199254740992.0 < 0.0000005;
  }

  lemma SignedMicros(value: int32, scale: nat)
    requires scale == 10 || scale == 100
    ensures Negate(value < 0, Micros(value, scale)) == InMicros(value, scale)
  {
  }

  lemma ReadMeasurement(value: int32, scale: nat)
    requires scale == 10 || scale == 100
    ensures ReadFixed(MeasurementText(value, scale)) == Some(InMicros(value, scale))
  {
    ReadFixedText(value < 0, Micros(value, scale));
    SignedMicros(value, scale);
  }

  /** measurement_to_string: whatever quotient a correctly rounded IEEE division returns, the printed
      text is exact, reads back to the measured integer, and fits a 50-byte buffer. */
  lemma MeasurementTextExact(value: int32, scale: nat, quotient: real, text: string)
    requires scale == 10 || scale == 100
    requires IsRoundedQuotient(value, scale, quotient)
    requires PrintsAs(quotient, text)
    ensures text == MeasurementText(value, scale)
    ensures ReadFixed(text) == Some(InMicros(value, scale))
    ensures |text| <= 17
  {
    assert text == MeasurementText(value, scale) by {
      DivisionError(value, scale, quotient);
      FixedPointExact(value, scale, quotient, text);
    }
    ReadMeasurement(value, scale);
    MeasurementTextShape(value, scale);
  }

  predicate IsMeasurementChar(c: char) {
    c == '-' || c == '.' || IsDigit(c, 10)
  }

  lemma MeasurementTextShape(value: int32, scale: nat)
    requires scale == 10 || scale == 100
    ensures var s := MeasurementText(value, scale);
            |s| <= 17 && forall i :: 0 <= i < |s| ==> IsMeasurementChar(s[i])
  {
    var micros := Micros(value, scale);
    Million();
    assert micros / 1_000_000 < 1_000_000_000;
    DigitsLength(micros / 1_000_000, 10, 9);
    DigitsRoundTrip(micros / 1_000_000, 10);
    PadValue(micros % 1_000_000, 6);
  }

  /** An unsigned field is cast to int32_t before printing: its text reads back to the field
      exactly when the field is below 2^31. */
  lemma UnsignedMeasurementText(field: uint32, scale: nat)
    requires scale == 10 || scale == 100
    ensures ReadFixed(MeasurementText(AsInt32(field), scale)) == Some(InMicros(field, scale)) <==> field < 0x8000_0000
  {
    ReadMeasurement(AsInt32(field), scale);
  }
}

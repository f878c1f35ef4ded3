/**
 * The JavaScript built-ins the application relies on, over exact numbers:
 * Math.round, the `%` operator on numbers, Number#toString in base 10 and 16,
 * parseInt on a digit prefix, String#padStart(2, "0") and String#trim.
 * A JavaScript NaN that can reach an output string is an Option None.
 */
module Js {

  datatype Option<+T> = None | Some(value: T)

  // ---------------------------------------------------------------------
  // Numbers
  // ---------------------------------------------------------------------

  /** Math.round: the nearest integer, halves rounded towards +infinity. */
  function Round(x: real): int
  {
    (x + 0.5).Floor
  }

  /** A value between two integers rounds to a value between them. */
  lemma RoundBetween(x: real, lo: int, hi: int)
    requires lo as real <= x <= hi as real
    ensures lo <= Round(x) <= hi
  {
  }

  lemma RoundOfInt(n: int)
    ensures Round(n as real) == n
  {
  }

  function Min(a: real, b: real): real { if a <= b then a else b }
  function Max(a: real, b: real): real { if a >= b then a else b }
  /** Math.abs. */
  function Abs(x: real): (r: real)
    ensures r >= 0.0 && (r == x || r == -x)
  {
    if x >= 0.0 then x else -x
  }

  /** Math.max(0, Math.min(1, t)). */
  function Clamp01(t: real): (c: real)
    ensures 0.0 <= c <= 1.0
    ensures 0.0 <= t <= 1.0 ==> c == t
  {
    Max(0.0, Min(1.0, t))
  }

  /** Truncation towards zero, as the `%` operator uses it. */
  function Trunc(x: real): int
  {
    if x >= 0.0 then x.Floor else -((-x).Floor)
  }

  /** The remainder `a % b` of two JavaScript numbers (the sign of `a`). */
  function Rem(a: real, b: real): real
    requires b != 0.0
  {
    a - b * Trunc(a / b) as real
  }

  lemma RemOfNonNegative(a: real, b: real)
    requires a >= 0.0 && b > 0.0
    ensures 0.0 <= Rem(a, b) < b
  {
    var q := a / b;
    assert b * q == a;
    assert q >= 0.0 by {
      if q < 0.0 {
        ScaleLt(b, q, 0.0);
      }
    }
    var k := q.Floor as real;
    assert k <= q < k + 1.0;
    assert Trunc(q) as real == k;
    assert Rem(a, b) == a - b * k;
    ScaleLe(b, k, q);
    ScaleLt(b, q, k + 1.0);
    assert b * (k + 1.0) == b * k + b;
    assert a < b * k + b;
    assert b * k <= a;
  }

  /** RemOfNonNegative as an implication, for use inside expressions. */
  lemma RemBounds(a: real, b: real)
    requires b != 0.0
    ensures a >= 0.0 && b > 0.0 ==> 0.0 <= Rem(a, b) < b
  {
    if a >= 0.0 && b > 0.0 {
      RemOfNonNegative(a, b);
    }
  }

  lemma ScaleLe(b: real, x: real, y: real)
    requires b > 0.0 && x <= y
    ensures b * x <= b * y
  {
  }

  /** A non-negative amount scaled by a factor in [0, 1] stays between 0 and itself. */
  lemma ScaleUnit(d: real, t: real)
    requires d >= 0.0 && 0.0 <= t <= 1.0
    ensures 0.0 <= d * t <= d
  {
    if d > 0.0 {
      ScaleLe(d, 0.0, t);
      ScaleLe(d, t, 1.0);
    }
  }

  lemma ScaleLt(b: real, x: real, y: real)
    requires b > 0.0 && x < y
    ensures b * x < b * y
  {
  }

  /** A quotient of 0 <= a <= b by a positive b lies in [0, 1], and below 1 when a < b. */
  lemma DivBounds(a: real, b: real)
    requires 0.0 <= a <= b && b > 0.0
    ensures 0.0 <= a / b <= 1.0
    ensures a < b ==> a / b < 1.0
  {
    var q := a / b;
    assert q * b == a;
    ScaleLe(b, 0.0, 1.0);
  }

  /** A share t in [0, 1] of a non-negative amount d lies between 0 and d, and at least d * lo for t >= lo. */
  lemma ShareOf(d: real, lo: real, t: real)
    ensures d >= 0.0 && 0.0 <= t <= 1.0 ==> 0.0 <= d * t <= d
    ensures d >= 0.0 && lo <= t ==> d * lo <= d * t
  {
    if d >= 0.0 && 0.0 <= t <= 1.0 {
      ScaleUnit(d, t);
    }
    if d > 0.0 && lo <= t {
      ScaleLe(d, lo, t);
    }
  }

  /**
   * start + (end - start) * t: the point a share t of the way from start to
   * end, as the interpolations in the source write it.
   */
  function Along(start: real, end: real, t: real): (v: real)
    ensures start <= end && 0.0 <= t <= 1.0 ==> start <= v <= end
    ensures start < end && 0.0 <= t < 1.0 ==> start <= v < end
    ensures t == 0.0 ==> v == start
    ensures t == 1.0 ==> v == end
  {
    ShareOf(end - start, 0.0, t);
    if start < end && 0.0 <= t < 1.0 then
      ScaleLt(end - start, t, 1.0);
      start + (end - start) * t
    else start + (end - start) * t
  }

  /** A remainder of a non-negative number below the divisor is the number itself. */
  lemma RemOfSmall(a: real, b: real)
    requires 0.0 <= a < b
    ensures Rem(a, b) == a
  {
    DivBounds(a, b);
    assert Trunc(a / b) == 0;
  }

  /** The remainder by b repeats with period b. */
  lemma RemPeriodic(a: real, b: real, k: nat)
    requires a >= 0.0 && b > 0.0
    ensures Rem(a + b * k as real, b) == Rem(a, b)
  {
    var q := a / b;
    assert q >= 0.0 by {
      assert q * b == a;
      if q < 0.0 {
        ScaleLt(b, q, 0.0);
      }
    }
    var q2 := (a + b * k as real) / b;
    assert q2 == q + k as real;
    assert Trunc(q2) == q.Floor + k;
    assert Trunc(q) == q.Floor;
  }

  /** Math.PI. */
  const PI: real := 3.141592653589793

  // ---------------------------------------------------------------------
  // Math.random
  // ---------------------------------------------------------------------

  /** A Math.random() draw. */
  predicate Unit(r: real) { 0.0 <= r < 1.0 }

  /** A draw scales a positive k into [0, k); the product is passed in so that callers see it as one term. */
  lemma UnitBelow(r: real, k: real, product: real)
    requires Unit(r) && k > 0.0 && product == r * k
    ensures 0.0 <= product < k
  {
    ScaleLt(k, r, 1.0);
    assert r * k == k * r;
  }

  /** A draw scaled by a positive k lies in [0, k). */
  lemma UnitScaled(r: real, k: real)
    requires Unit(r)
    ensures k > 0.0 ==> 0.0 <= r * k < k
  {
    if k > 0.0 {
      UnitBelow(r, k, r * k);
    }
  }

  /** list[Math.floor(Math.random() * list.length)]: the index of a draw in a non-empty list. */
  function PickIndex(r: real, n: nat): (i: nat)
    requires Unit(r) && n > 0
    ensures i < n
  {
    ScaleLt(n as real, r, 1.0);
    (r * n as real).Floor
  }

  // ---------------------------------------------------------------------
  // Decimal digits
  // ---------------------------------------------------------------------

  predicate IsDigit(c: char) { '0' <= c <= '9' }

  predicate AllDigits(s: string)
  {
    forall i | 0 <= i < |s| :: IsDigit(s[i])
  }

  function DigitChar(d: nat): (c: char)
    requires d < 10
    ensures IsDigit(c)
  {
    ('0' as int + d) as char
  }

  function DigitValue(c: char): (d: nat)
    requires IsDigit(c)
    ensures d < 10 && DigitChar(d) == c
  {
    c as int - '0' as int
  }

  /** Number#toString() of a non-negative integer. */
  function NatToDecimal(n: nat): (s: string)
    ensures 1 <= |s| && AllDigits(s)
    ensures n < 10 <==> |s| == 1
    ensures |s| == 1 || s[0] != '0'
  {
    if n < 10 then [DigitChar(n)] else NatToDecimal(n / 10) + [DigitChar(n % 10)]
  }

  /** `${i}` for an integer. */
  function IntToDecimal(i: int): string
  {
    if i < 0 then "-" + NatToDecimal(-i) else NatToDecimal(i)
  }

  /** The value of a string of decimal digits (Number("0123") is 123). */
  function DecimalValue(s: string): nat
    requires AllDigits(s)
  {
    if s == [] then 0 else DecimalValue(s[..|s| - 1]) * 10 + DigitValue(s[|s| - 1])
  }

  /** Printing a natural number in base 10 and reading it back gives the number. */
  lemma {:induction false} DecimalRoundTrip(n: nat)
    ensures DecimalValue(NatToDecimal(n)) == n
  {
    if n >= 10 {
      DecimalRoundTrip(n / 10);
      var s := NatToDecimal(n);
      assert s[..|s| - 1] == NatToDecimal(n / 10);
    }
  }

  /**
   * Number(s) for the integer forms of a numeric string: s is trimmed; ""
   * is 0; otherwise an optional sign and decimal digits, or "0x", "0o" or
   * "0b" (any case, no sign) and digits of that base. Anything else is left
   * as NaN (None). A string of plain digits is read at once;
   * NumberOfGeneral shows the general path gives it the same value.
   */
  function NumberOf(s: string): (n: Option<int>)
    ensures AllDigits(s) ==> n == Some(DecimalValue(s) as int)
    ensures n.Some? && '-' !in s ==> n.value >= 0
  {
    if AllDigits(s) then Some(DecimalValue(s) as int)
    else
      TrimKeepsSign(s);
      NumberOfText(Trim(s))
  }

  /** Number of an already trimmed string: "", a signed decimal, or a prefixed integer. */
  function NumberOfText(t: string): (n: Option<int>)
    ensures n.Some? && (t == [] || t[0] != '-') ==> n.value >= 0
  {
    if t == [] then Some(0)
    else if t[0] == '-' || t[0] == '+' then
      var u := t[1..];
      if u == [] || !AllDigits(u) then None
      else if t[0] == '-' then Some(-(DecimalValue(u) as int))
      else Some(DecimalValue(u) as int)
    else if |t| >= 3 && t[0] == '0' && RadixOf(t[1]) > 0 then
      var u := t[2..];
      if AllRadixDigits(u, RadixOf(t[1])) then Some(RadixValue(u, RadixOf(t[1]))) else None
    else if AllDigits(t) then Some(DecimalValue(t) as int)
    else None
  }

  /** The base a letter after a leading "0" names in a numeric string; 0 for none. */
  function RadixOf(c: char): (r: nat)
    ensures r == 0 || r == 2 || r == 8 || r == 16
  {
    if c == 'x' || c == 'X' then 16 else if c == 'o' || c == 'O' then 8 else if c == 'b' || c == 'B' then 2 else 0
  }

  /** Every character is a digit of the given base. */
  predicate AllRadixDigits(s: string, radix: nat)
  {
    s == [] || (AllRadixDigits(s[..|s| - 1], radix) && IsHexDigit(s[|s| - 1]) && HexDigitValue(s[|s| - 1]) < radix)
  }

  /** The value of a string of digits of the given base. */
  function RadixValue(s: string, radix: nat): nat
    requires AllRadixDigits(s, radix)
  {
    if s == [] then 0
    else
      var high := RadixValue(s[..|s| - 1], radix);
      ScaledNat(high, radix);
      high * radix + HexDigitValue(s[|s| - 1])
  }

  /** A product of naturals is a natural. */
  lemma ScaledNat(a: nat, b: nat)
    ensures a * b >= 0
  {
  }

  /** A digit string has no white space to trim. */
  lemma TrimOfDigits(s: string)
    ensures AllDigits(s) ==> Trim(s) == s
  {
    if AllDigits(s) && s != [] {
      assert !IsSpace(s[0]);
      assert TrimStart(s) == s;
      assert !IsSpace(s[|s| - 1]);
    }
  }

  /** A sign at the head of the trimmed string comes from s itself. */
  lemma TrimKeepsSign(s: string)
    ensures Trim(s) != [] ==> Trim(s)[0] in s
  {
    var t := TrimStart(s);
    TrimStartShape(s);
    TrimEndShape(t);
    if Trim(s) != [] {
      assert Trim(s)[0] == t[0] == s[|s| - |t|];
    }
  }

  /** White space around a string with none at its ends is trimmed away. */
  lemma {:induction false} TrimPadded(w1: string, s: string, w2: string)
    requires AllSpace(w1) && AllSpace(w2)
    requires s != [] && !IsSpace(s[0]) && !IsSpace(s[|s| - 1])
    ensures Trim(w1 + s + w2) == s
  {
    TrimStartSpace(w1, s + w2);
    assert w1 + s + w2 == w1 + (s + w2);
    assert TrimStart(s + w2) == s + w2 by {
      assert (s + w2)[0] == s[0];
    }
    TrimEndSpace(s, w2);
  }

  /** Leading white space makes no difference to TrimStart. */
  lemma {:induction false} TrimStartSpace(w: string, s: string)
    requires AllSpace(w)
    ensures TrimStart(w + s) == TrimStart(s)
  {
    if w == [] {
      assert w + s == s;
    } else {
      assert (w + s)[1..] == w[1..] + s;
      TrimStartSpace(w[1..], s);
    }
  }

  /** Trailing white space after a non-space end is what TrimEnd removes. */
  lemma {:induction false} TrimEndSpace(s: string, w: string)
    requires AllSpace(w) && s != [] && !IsSpace(s[|s| - 1])
    ensures TrimEnd(s + w) == s
  {
    if w == [] {
      assert s + w == s;
    } else {
      assert (s + w)[..|s + w| - 1] == s + w[..|w| - 1];
      TrimEndSpace(s, w[..|w| - 1]);
    }
  }

  /** Number(" 2024 ") and the like: white space around the digits is ignored. */
  lemma NumberOfPadded(w1: string, d: string, w2: string)
    requires AllSpace(w1) && AllSpace(w2)
    requires d != [] && AllDigits(d)
    ensures NumberOf(w1 + d + w2) == Some(DecimalValue(d) as int)
  {
    NumberOfGeneral(w1 + d + w2);
    TrimPadded(w1, d, w2);
    NumberOfTextDigits(d);
  }

  /** Number(s) always agrees with its general path: trim, then read the text. */
  lemma NumberOfGeneral(s: string)
    ensures NumberOf(s) == NumberOfText(Trim(s))
  {
    if AllDigits(s) {
      TrimOfDigits(s);
      NumberOfTextDigits(s);
    }
  }

  /** The general path reads a string of plain digits as its decimal value too. */
  lemma NumberOfTextDigits(s: string)
    requires AllDigits(s)
    ensures NumberOfText(s) == Some(DecimalValue(s) as int)
  {
    if s != [] {
      assert s[0] != '-' && s[0] != '+';
      assert !(|s| >= 3 && s[0] == '0' && RadixOf(s[1]) > 0);
    }
  }

  /** A string with no white space at its ends trims to itself. */
  lemma TrimUnspaced(s: string)
    requires s != [] && !IsSpace(s[0]) && !IsSpace(s[|s| - 1])
    ensures Trim(s) == s
  {
    assert TrimStart(s) == s;
  }

  /** Number("-12") and Number("+12"): a sign before the digits. */
  lemma NumberOfSigned(sign: char, d: string)
    requires sign == '-' || sign == '+'
    requires d != [] && AllDigits(d)
    ensures NumberOf([sign] + d) == Some(if sign == '-' then -(DecimalValue(d) as int) else DecimalValue(d) as int)
  {
    var s := [sign] + d;
    NumberOfTextSigned(sign, d);
    HexDigitOrdinary(d[|d| - 1]);
    assert s[0] == sign && s[|s| - 1] == d[|d| - 1];
    NumberOfUnspaced(s, if sign == '-' then -(DecimalValue(d) as int) else DecimalValue(d) as int);
  }

  /** The text after a sign is read as a decimal. */
  lemma NumberOfTextSigned(sign: char, d: string)
    requires sign == '-' || sign == '+'
    requires d != [] && AllDigits(d)
    ensures NumberOfText([sign] + d) == Some(if sign == '-' then -(DecimalValue(d) as int) else DecimalValue(d) as int)
  {
    assert ([sign] + d)[1..] == d;
  }

  /** Number(s) of a string with no white space at its ends is the reading of s itself. */
  lemma NumberOfUnspaced(s: string, n: int)
    requires s != [] && !IsSpace(s[0]) && !IsSpace(s[|s| - 1])
    requires NumberOfText(s) == Some(n)
    ensures NumberOf(s) == Some(n)
  {
    NumberOfGeneral(s);
    TrimUnspaced(s);
  }

  /** Number("0x1f"), Number("0o17"), Number("0b101"): a prefixed run of digits of that base. */
  lemma NumberOfPrefixed(letter: char, d: string)
    requires RadixOf(letter) > 0
    requires d != [] && AllRadixDigits(d, RadixOf(letter))
    ensures NumberOf(['0', letter] + d) == Some(RadixValue(d, RadixOf(letter)) as int)
  {
    var s := ['0', letter] + d;
    NumberOfTextPrefixed(letter, d);
    HexDigitOrdinary(d[|d| - 1]);
    assert s[0] == '0' && s[|s| - 1] == d[|d| - 1];
    NumberOfUnspaced(s, RadixValue(d, RadixOf(letter)) as int);
  }

  /** The text after "0x", "0o" or "0b" is read in that base. */
  lemma NumberOfTextPrefixed(letter: char, d: string)
    requires RadixOf(letter) > 0
    requires d != [] && AllRadixDigits(d, RadixOf(letter))
    ensures NumberOfText(['0', letter] + d) == Some(RadixValue(d, RadixOf(letter)) as int)
  {
    assert (['0', letter] + d)[2..] == d;
  }

  /** String#padStart(2, "0"). */
  function PadStart2(s: string): (r: string)
    ensures |s| >= 2 ==> r == s
    ensures |s| < 2 ==> |r| == 2 && r[2 - |s|..] == s && forall i | 0 <= i < 2 - |s| :: r[i] == '0'
  {
    if |s| >= 2 then s else if |s| == 1 then "0" + s else "00"
  }

  /** String(n).padStart(2, "0") of a number below 100 is its two digits. */
  lemma {:induction false} TwoDigits(n: nat)
    requires n < 100
    ensures PadStart2(NatToDecimal(n)) == [DigitChar(n / 10), DigitChar(n % 10)]
  {
    if n >= 10 {
      assert NatToDecimal(n / 10) == [DigitChar(n / 10)];
    }
  }

  // ---------------------------------------------------------------------
  // Hexadecimal digits
  // ---------------------------------------------------------------------

  predicate IsHexDigit(c: char)
  {
    IsDigit(c) || 'a' <= c <= 'f' || 'A' <= c <= 'F'
  }

  function HexDigitValue(c: char): (d: nat)
    requires IsHexDigit(c)
    ensures d < 16
  {
    if IsDigit(c) then DigitValue(c)
    else if 'a' <= c <= 'f' then c as int - 'a' as int + 10
    else c as int - 'A' as int + 10
  }

  const LOWER_HEX: string := "0123456789abcdef"

  function HexChar(d: nat): (c: char)
    requires d < 16
    ensures IsHexDigit(c) && HexDigitValue(c) == d
  {
    LOWER_HEX[d]
  }

  /** Number#toString(16) of a non-negative integer (lower-case digits). */
  function NatToHex(n: nat): (s: string)
    ensures 1 <= |s|
    ensures n < 16 <==> |s| == 1
  {
    if n < 16 then [HexChar(n)] else NatToHex(n / 16) + [HexChar(n % 16)]
  }

  /** Number#toString(16) of an integer: a '-' before the digits of a negative one. */
  function IntToHex(i: int): (s: string)
    ensures 1 <= |s|
    ensures i < 0 ==> s == "-" + NatToHex(-i)
    ensures i >= 0 ==> s == NatToHex(i)
  {
    if i < 0 then "-" + NatToHex(-i) else NatToHex(i)
  }

  /** The number of leading hexadecimal digits of s. */
  function HexPrefixLength(s: string): (k: nat)
    ensures k <= |s|
    ensures forall i | 0 <= i < k :: IsHexDigit(s[i])
    ensures k < |s| ==> !IsHexDigit(s[k])
  {
    if s == [] || !IsHexDigit(s[0]) then 0 else 1 + HexPrefixLength(s[1..])
  }

  function HexValue(s: string): nat
    requires forall i | 0 <= i < |s| :: IsHexDigit(s[i])
  {
    if s == [] then 0 else HexValue(s[..|s| - 1]) * 16 + HexDigitValue(s[|s| - 1])
  }

  /**
   * parseInt(s, 16) for a string that does not start with white space, a sign
   * or "0x": the value of the longest prefix of hexadecimal digits, NaN when
   * there is none.
   */
  function ParseHex(s: string): Option<nat>
  {
    var k := HexPrefixLength(s);
    if k == 0 then None else Some(HexValue(s[..k]))
  }

  /** n.toString(16).padStart(2, "0"): two lower-case digits for a byte. */
  function HexByte(n: nat): (s: string)
    requires n < 256
    ensures |s| == 2
  {
    PadStart2(NatToHex(n))
  }

  lemma HexByteDigits(n: nat)
    requires n < 256
    ensures HexByte(n) == [HexChar(n / 16), HexChar(n % 16)]
  {
    if n >= 16 {
      assert NatToHex(n / 16) == [HexChar(n / 16)];
      assert NatToHex(n) == [HexChar(n / 16), HexChar(n % 16)];
    } else {
      assert n / 16 == 0 && n % 16 == n;
      assert HexChar(0) == '0';
      assert NatToHex(n) == [HexChar(n)];
    }
  }

  /** A byte printed as two hexadecimal digits parses back to itself. */
  lemma HexByteRoundTrip(n: nat)
    requires n < 256
    ensures ParseHex(HexByte(n)) == Some(n)
  {
    HexByteDigits(n);
    ParseTwoHexDigits(HexChar(n / 16), HexChar(n % 16));
  }

  /** parseInt of two hexadecimal digits. */
  lemma ParseTwoHexDigits(a: char, b: char)
    requires IsHexDigit(a) && IsHexDigit(b)
    ensures ParseHex([a, b]) == Some(HexDigitValue(a) * 16 + HexDigitValue(b))
  {
    var s := [a, b];
    assert HexPrefixLength(s[1..][1..]) == 0;
    assert HexPrefixLength(s) == 2;
    assert s[..2] == s;
    assert s[..1] == [a];
    assert HexValue([a]) == HexDigitValue(a) by {
      assert [a][..0] == [];
    }
  }

  /**
   * parseInt(s, 16): leading white space is skipped, then an optional sign,
   * then an optional "0x" or "0X"; the value is that of the longest run of
   * hexadecimal digits that follows, NaN (None) when there is none.
   */
  function ParseInt16(s: string): Option<int>
  {
    if s != [] && IsSpace(s[0]) then ParseInt16(s[1..]) else ParseSignedHex(s)
  }

  /** What parseInt(…, 16) reads once the leading white space is gone: an optional sign, then the digits. */
  function ParseSignedHex(t: string): Option<int>
  {
    if t != [] && t[0] == '-' then Negate(ParseUnsignedHex(t[1..]))
    else if t != [] && t[0] == '+' then Widen(ParseUnsignedHex(t[1..]))
    else Widen(ParseUnsignedHex(t))
  }

  /** The digits after an optional "0x" or "0X". */
  function ParseUnsignedHex(u: string): Option<nat>
  {
    if |u| >= 2 && u[0] == '0' && (u[1] == 'x' || u[1] == 'X') then ParseHex(u[2..]) else ParseHex(u)
  }

  function Negate(n: Option<nat>): Option<int>
  {
    match n
    case None => None
    case Some(m) => Some(-(m as int))
  }

  function Widen(n: Option<nat>): Option<int>
  {
    match n
    case None => None
    case Some(m) => Some(m as int)
  }

  /** A string that starts with none of the things parseInt skips before the digits. */
  predicate Plain(s: string)
  {
    s == [] || (!IsSpace(s[0]) && s[0] != '-' && s[0] != '+' && !(|s| >= 2 && s[0] == '0' && (s[1] == 'x' || s[1] == 'X')))
  }

  /** parseInt(s, 16) of a string with nothing to skip is the value of its leading hexadecimal digits. */
  lemma ParseInt16Plain(s: string)
    requires Plain(s)
    ensures ParseInt16(s) == match ParseHex(s) case None => None case Some(v) => Some(v)
  {
  }

  /** A hexadecimal digit is none of the characters parseInt treats specially. */
  lemma HexDigitOrdinary(c: char)
    requires IsHexDigit(c)
    ensures !IsSpace(c) && c != '-' && c != '+' && c != 'x' && c != 'X'
  {
  }

  /** A string of hexadecimal digits is read by parseInt(s, 16) as its plain value. */
  lemma HexDigitsPlain(s: string)
    requires forall i | 0 <= i < |s| :: IsHexDigit(s[i])
    ensures Plain(s)
    ensures ParseInt16(s) == match ParseHex(s) case None => None case Some(v) => Some(v)
  {
    if s != [] {
      HexDigitOrdinary(s[0]);
      if |s| >= 2 {
        HexDigitOrdinary(s[1]);
      }
    }
    ParseInt16Plain(s);
  }

  /** parseInt(w + s, 16) skips the white space w. */
  lemma {:induction false} ParseInt16Padded(w: string, s: string)
    requires AllSpace(w)
    ensures ParseInt16(w + s) == ParseInt16(s)
  {
    if w != [] {
      assert (w + s)[0] == w[0] && (w + s)[1..] == w[1..] + s;
      ParseInt16Padded(w[1..], s);
    } else {
      assert w + s == s;
    }
  }

  /** Every character is a hexadecimal digit. */
  predicate AllHexDigits(s: string)
  {
    forall i | 0 <= i < |s| :: IsHexDigit(s[i])
  }

  /** parseInt("-" + s, 16) and parseInt("+" + s, 16) of hexadecimal digits s. */
  lemma ParseInt16Signed(sign: char, s: string)
    requires sign == '-' || sign == '+'
    requires s != [] && AllHexDigits(s)
    ensures ParseInt16([sign] + s) == Some(if sign == '-' then -(HexValue(s) as int) else HexValue(s) as int)
  {
    var v := HexValue(s);
    var n := if sign == '-' then -(v as int) else v as int;
    var t := [sign] + s;
    assert ParseSignedHex(t) == Some(n) by {
      UnsignedHexAll(s);
      SignedHexOf(sign, s, v);
    }
    assert t[0] == sign;
    ParseInt16Unspaced(t, n);
  }

  /** parseInt(t, 16) of a t that starts with no white space reads its sign and digits at once. */
  lemma ParseInt16Unspaced(t: string, n: int)
    requires t != [] && (t[0] == '-' || t[0] == '+') && ParseSignedHex(t) == Some(n)
    ensures ParseInt16(t) == Some(n)
  {
  }

  /** A sign before a run parseInt reads as v reads as v or -v. */
  lemma SignedHexOf(sign: char, s: string, v: nat)
    requires sign == '-' || sign == '+'
    requires ParseUnsignedHex(s) == Some(v)
    ensures ParseSignedHex([sign] + s) == Some(if sign == '-' then -(v as int) else v as int)
  {
    assert ([sign] + s)[1..] == s;
  }

  /** A run of hexadecimal digits, without a "0x", reads as its value. */
  lemma UnsignedHexAll(s: string)
    requires s != [] && AllHexDigits(s)
    ensures ParseUnsignedHex(s) == Some(HexValue(s))
  {
    HexDigitOrdinary(s[0]);
    if |s| >= 2 {
      HexDigitOrdinary(s[1]);
    }
    ParseHexAll(s);
  }

  /** parseInt(…, 16) of a non-empty run of hexadecimal digits reads all of it. */
  lemma ParseHexAll(s: string)
    requires s != [] && AllHexDigits(s)
    ensures ParseHex(s) == Some(HexValue(s))
  {
    assert HexPrefixLength(s) == |s|;
    assert s[..|s|] == s;
  }

  // ---------------------------------------------------------------------
  // Strings
  // ---------------------------------------------------------------------

  /** The white space and line terminators that String#trim removes. */
  predicate IsSpace(c: char)
  {
    c == ' ' || c == '\t' || c == '\n' || c == '\r' || c == '\U{0B}' || c == '\U{0C}'
    || c == '\U{A0}' || c == '\U{1680}' || ('\U{2000}' <= c <= '\U{200A}')
    || c == '\U{2028}' || c == '\U{2029}' || c == '\U{202F}' || c == '\U{205F}'
    || c == '\U{3000}' || c == '\U{FEFF}'
  }

  predicate AllSpace(s: string)
  {
    forall i | 0 <= i < |s| :: IsSpace(s[i])
  }

  /** String#trimStart. */
  function TrimStart(s: string): string
  {
    if s != [] && IsSpace(s[0]) then TrimStart(s[1..]) else s
  }

  /** String#trimEnd. */
  function TrimEnd(s: string): string
  {
    if s != [] && IsSpace(s[|s| - 1]) then TrimEnd(s[..|s| - 1]) else s
  }

  /** TrimStart removes a run of white space from the front and stops at a non-space. */
  lemma {:induction false} TrimStartShape(s: string)
    ensures var r := TrimStart(s);
            |r| <= |s| && r == s[|s| - |r|..] && AllSpace(s[..|s| - |r|]) && (r == [] || !IsSpace(r[0]))
  {
    if s != [] && IsSpace(s[0]) {
      TrimStartShape(s[1..]);
      var r := TrimStart(s);
      assert s[..|s| - |r|] == [s[0]] + s[1..][..|s| - 1 - |r|];
    } else {
      assert s[..0] == [];
    }
  }

  /** TrimEnd removes a run of white space from the back and stops at a non-space. */
  lemma {:induction false} TrimEndShape(s: string)
    ensures var r := TrimEnd(s);
            |r| <= |s| && r == s[..|r|] && AllSpace(s[|r|..]) && (r == [] || !IsSpace(r[|r| - 1]))
  {
    if s != [] && IsSpace(s[|s| - 1]) {
      var p := s[..|s| - 1];
      TrimEndShape(p);
      var r := TrimEnd(s);
      assert s[|r|..] == p[|r|..] + [s[|s| - 1]];
    } else {
      assert s[|s|..] == [];
    }
  }

  /** String#trim. */
  function Trim(s: string): string
  {
    TrimEnd(TrimStart(s))
  }

  /** Trimming leaves a piece of s with no white space at either end. */
  lemma TrimShape(s: string)
    ensures exists i, j :: 0 <= i <= j <= |s| && Trim(s) == s[i..j]
    ensures Trim(s) == [] || (!IsSpace(Trim(s)[0]) && !IsSpace(Trim(s)[|Trim(s)| - 1]))
  {
    var t := TrimStart(s);
    var r := TrimEnd(t);
    TrimStartShape(s);
    TrimEndShape(t);
    var i := |s| - |t|;
    assert t == s[i..] && r == t[..|r|];
    assert r == s[i..i + |r|];
    assert 0 <= i <= i + |r| <= |s| && Trim(s) == s[i..i + |r|];
    if r != [] {
      assert r[0] == t[0];
    }
  }

  /** `!s.trim()`: the trimmed string is empty exactly when s is all white space. */
  lemma TrimEmptyIffAllSpace(s: string)
    ensures Trim(s) == [] <==> AllSpace(s)
  {
    var t := TrimStart(s);
    TrimStartShape(s);
    TrimEndShape(t);
    if t != [] {
      assert !IsSpace(t[0]);
      assert t == s[|s| - |t|..];
      assert !IsSpace(s[|s| - |t|]);
    } else {
      assert s[..|s|] == s;
    }
  }

  /** String#startsWith. */
  predicate StartsWith(s: string, prefix: string)
  {
    |prefix| <= |s| && s[..|prefix|] == prefix
  }

  /** String#replace(target, by) with a one-character target: only the first occurrence. */
  function ReplaceFirst(s: string, target: char, replacement: string): (r: string)
    ensures target !in s ==> r == s
  {
    if s == [] then []
    else if s[0] == target then replacement + s[1..]
    else [s[0]] + ReplaceFirst(s[1..], target, replacement)
  }

  /** String#split on a one-character separator. */
  function Split(s: string, sep: char): (parts: seq<string>)
    ensures |parts| >= 1
    ensures forall k | 0 <= k < |parts| :: sep !in parts[k]
  {
    if sep !in s then [s]
    else
      var i := IndexOf(s, sep);
      [s[..i]] + Split(s[i + 1..], sep)
  }

  function IndexOf(s: string, c: char): (i: nat)
    requires c in s
    ensures i < |s| && s[i] == c && c !in s[..i]
  {
    if s[0] == c then 0 else 1 + IndexOf(s[1..], c)
  }

  /** Splitting a + [sep] + b on sep, where a has no separator. */
  lemma SplitOnFirst(a: string, sep: char, b: string)
    requires sep !in a
    ensures Split(a + [sep] + b, sep) == [a] + Split(b, sep)
  {
    var s := a + [sep] + b;
    assert s[|a|] == sep;
    var i := IndexOf(s, sep);
    assert s[..i] == a;
    assert s[i + 1..] == b;
  }

  lemma SplitWithout(s: string, sep: char)
    requires sep !in s
    ensures Split(s, sep) == [s]
  {
  }
}

/**
 * The colour blending of the solar-term styles: lerpColor on hexadecimal
 * colours ("#RGB", "#RRGGBB", "#RRGGBBAA") and lerpRgba on "rgb(...)" and
 * "rgba(...)" strings. Both clamp the blend factor to [0, 1] and round
 * every channel with Math.round.
 */
module SekkiColor {
  import opened Js

  /** x + (y - x) * t. */
  function Blend(x: real, y: real, t: real): real
  {
    x + (y - x) * t
  }

  /** A blend with 0 <= t <= 1 lies between its two ends. */
  lemma BlendBetween(x: real, y: real, t: real)
    requires 0.0 <= t <= 1.0
    ensures Min(x, y) <= Blend(x, y, t) <= Max(x, y)
    ensures t == 0.0 ==> Blend(x, y, t) == x
    ensures t == 1.0 ==> Blend(x, y, t) == y
  {
    if x <= y {
      ScaleUnit(y - x, t);
    } else {
      ScaleUnit(x - y, t);
      assert (y - x) * t == -((x - y) * t);
    }
  }

  /** Math.round(c1 + (c2 - c1) * t) of two channels; NaN (None) when either is NaN. */
  function BlendChannel(c1: Option<int>, c2: Option<int>, t: real): (c: Option<int>)
    requires 0.0 <= t <= 1.0
    ensures c.Some? <==> c1.Some? && c2.Some?
    ensures c.Some? ==> (c.value >= c1.value || c.value >= c2.value)
    ensures c.Some? ==> (c.value <= c1.value || c.value <= c2.value)
    ensures c.Some? && t == 0.0 ==> c.value == c1.value
    ensures c.Some? && t == 1.0 ==> c.value == c2.value
  {
    if c1.None? || c2.None? then None
    else
      var x := Blend(c1.value as real, c2.value as real, t);
      BlendBetween(c1.value as real, c2.value as real, t);
      var lo := if c1.value <= c2.value then c1.value else c2.value;
      var hi := if c1.value <= c2.value then c2.value else c1.value;
      RoundBetween(x, lo, hi);
      RoundOfInt(c1.value);
      RoundOfInt(c2.value);
      Some(Round(x))
  }

  // ---------------------------------------------------------------------
  // lerpColor
  // ---------------------------------------------------------------------

  /** String#substring(from, to) with from <= to: both ends cut to the length. */
  function Substring(s: string, from: nat, to: nat): (r: string)
    requires from <= to
    ensures to <= |s| ==> r == s[from..to]
    ensures |r| <= to - from
  {
    var a := if from <= |s| then from else |s|;
    var b := if to <= |s| then to else |s|;
    s[a..b]
  }

  /** The digits of a colour: the first '#' removed and a three-digit form doubled. */
  function ExpandHex(hex: string): string
  {
    var h := ReplaceFirst(hex, '#', "");
    if |h| == 3 then [h[0], h[0], h[1], h[1], h[2], h[2]] else h
  }

  datatype Channels = Channels(r: Option<int>, g: Option<int>, b: Option<int>)

  /** A value parseInt can read from two characters: "-f" to "ff". */
  predicate TwoCharValue(n: int)
  {
    -16 < n < 256
  }

  /**
   * The red, green and blue values parseInt(…, 16) reads from characters
   * 0-1, 2-3 and 4-5 of the digits.
   */
  function ParseChannels(hex: string): (c: Channels)
    ensures c.r.Some? ==> TwoCharValue(c.r.value)
    ensures c.g.Some? ==> TwoCharValue(c.g.value)
    ensures c.b.Some? ==> TwoCharValue(c.b.value)
  {
    var h := ExpandHex(hex);
    Channels(PairAt(h, 0), PairAt(h, 2), PairAt(h, 4))
  }

  /** parseInt(h.substring(i, i + 2), 16). */
  function PairAt(h: string, i: nat): (n: Option<int>)
    ensures n.Some? ==> TwoCharValue(n.value)
  {
    ParseInt16Short(Substring(h, i, i + 2));
    ParseInt16(Substring(h, i, i + 2))
  }

  /** parseInt(s, 16) of at most one or two hexadecimal digits is below 16 or 256. */
  lemma ParseHexShort(s: string)
    requires |s| <= 2
    ensures ParseHex(s).Some? ==> ParseHex(s).value < 256
    ensures |s| <= 1 && ParseHex(s).Some? ==> ParseHex(s).value < 16
  {
    var k := HexPrefixLength(s);
    if k == 1 {
      var t := s[..1];
      assert t[..0] == [];
      assert HexValue(t) == HexDigitValue(t[0]);
    } else if k == 2 {
      var t := s[..2];
      var u := t[..1];
      assert u[..0] == [];
      assert HexValue(u) == HexDigitValue(u[0]);
      assert HexValue(t) == HexValue(u) * 16 + HexDigitValue(t[1]);
      assert HexValue(t) < 256;
    }
  }

  /** parseInt(s, 16) of at most two characters lies between -15 and 255. */
  lemma {:induction false} ParseInt16Short(s: string)
    requires |s| <= 2
    ensures ParseInt16(s).Some? ==> TwoCharValue(ParseInt16(s).value)
  {
    if s != [] && IsSpace(s[0]) {
      ParseInt16Short(s[1..]);
    } else if s != [] && (s[0] == '-' || s[0] == '+') {
      UnsignedHexShort(s[1..]);
    } else {
      UnsignedHexShort(s);
    }
  }

  lemma UnsignedHexShort(u: string)
    requires |u| <= 2
    ensures ParseUnsignedHex(u).Some? ==> ParseUnsignedHex(u).value < 256
    ensures |u| <= 1 && ParseUnsignedHex(u).Some? ==> ParseUnsignedHex(u).value < 16
  {
    ParseHexShort(u);
    if |u| >= 2 {
      ParseHexShort(u[2..]);
    }
  }

  /** n.toString(16).padStart(2, "0"), or "NaN" for NaN. */
  function HexOut(c: Option<int>): (s: string)
    ensures c.Some? && TwoCharValue(c.value) ==> |s| == 2
    ensures c.None? ==> s == "NaN"
  {
    match c
    case None => "NaN"
    case Some(n) => PadStart2(IntToHex(n))
  }

  /** Every channel was read: none of them is NaN. */
  predicate Complete(c: Channels)
  {
    c.r.Some? && c.g.Some? && c.b.Some?
  }

  /**
   * lerpColor(color1, color2, t): a '#' and three two-digit channels when
   * both colours read completely; a NaN channel prints as "NaN" and makes
   * the text longer.
   */
  function LerpColor(color1: string, color2: string, t: real): (c: string)
    ensures |c| >= 7 && c[0] == '#'
    ensures |c| == 7 <==> Complete(ParseChannels(color1)) && Complete(ParseChannels(color2))
  {
    var k := Clamp01(t);
    var p := ParseChannels(color1);
    var q := ParseChannels(color2);
    "#" + (HexOut(BlendChannel(p.r, q.r, k)) + HexOut(BlendChannel(p.g, q.g, k))
           + HexOut(BlendChannel(p.b, q.b, k)))
  }

  /** "#RGB", "#RRGGBB" or "#RRGGBBAA". */
  predicate WellFormedHex(c: string)
  {
    (|c| == 4 || |c| == 7 || |c| == 9) && c[0] == '#'
    && forall i | 1 <= i < |c| :: IsHexDigit(c[i])
  }

  /** The six digits a well-formed colour stands for: a short form doubled, an alpha pair dropped. */
  function Digits6(c: string): (d: string)
    requires WellFormedHex(c)
    ensures |d| == 6 && forall i | 0 <= i < 6 :: IsHexDigit(d[i])
  {
    if |c| == 4 then [c[1], c[1], c[2], c[2], c[3], c[3]] else c[1..7]
  }

  /** The six lower-case digits a well-formed colour stands for. */
  function NormalizedHex(c: string): (h: string)
    requires WellFormedHex(c)
    ensures |h| == 6
  {
    var d := Digits6(c);
    [LowerHexDigit(d[0]), LowerHexDigit(d[1]), LowerHexDigit(d[2]),
     LowerHexDigit(d[3]), LowerHexDigit(d[4]), LowerHexDigit(d[5])]
  }

  lemma ExpandWellFormed(c: string)
    requires WellFormedHex(c)
    ensures |ExpandHex(c)| >= 6 && ExpandHex(c)[..6] == Digits6(c)
  {
    assert ReplaceFirst(c, '#', "") == c[1..];
  }

  /** The byte two hexadecimal digits stand for. */
  function PairValue(a: char, b: char): nat
    requires IsHexDigit(a) && IsHexDigit(b)
  {
    HexDigitValue(a) * 16 + HexDigitValue(b)
  }

  /** The channels of a well-formed colour are the values of its digit pairs. */
  lemma ParseWellFormed(c: string)
    requires WellFormedHex(c)
    ensures var d := Digits6(c);
            ParseChannels(c) == Channels(Some(PairValue(d[0], d[1])), Some(PairValue(d[2], d[3])),
                                         Some(PairValue(d[4], d[5])))
  {
    var h := ExpandHex(c);
    var d := Digits6(c);
    assert |h| >= 6 && h[0] == d[0] && h[1] == d[1] && h[2] == d[2] && h[3] == d[3] && h[4] == d[4] && h[5] == d[5] by {
      ExpandWellFormed(c);
      assert h[..6] == d;
    }
    PairOfDigits(h, 0, d[0], d[1]);
    PairOfDigits(h, 2, d[2], d[3]);
    PairOfDigits(h, 4, d[4], d[5]);
  }

  /** parseInt of the two digits at i and i + 1. */
  lemma PairOfDigits(h: string, i: nat, a: char, b: char)
    requires i + 2 <= |h| && h[i] == a && h[i + 1] == b && IsHexDigit(a) && IsHexDigit(b)
    ensures PairAt(h, i) == Some(PairValue(a, b))
  {
    assert Substring(h, i, i + 2) == [a, b];
    ParseTwoHexDigits(a, b);
    HexDigitsPlain([a, b]);
  }

  /** The lower-case form of a hexadecimal digit. */
  function LowerHexDigit(c: char): char
    requires IsHexDigit(c)
  {
    HexChar(HexDigitValue(c))
  }

  /** A byte parsed from two digits prints back as those digits in lower case. */
  lemma HexOutOfPair(a: char, b: char)
    requires IsHexDigit(a) && IsHexDigit(b)
    ensures HexOut(Some(PairValue(a, b))) == [LowerHexDigit(a), LowerHexDigit(b)]
  {
    var n := PairValue(a, b);
    assert n / 16 == HexDigitValue(a) && n % 16 == HexDigitValue(b);
    HexByteDigits(n);
    assert HexOut(Some(n)) == HexByte(n);
  }

  /** Printing the channels of a well-formed colour gives its normalised digits. */
  lemma HexOutWellFormed(c: string)
    requires WellFormedHex(c)
    ensures var p := ParseChannels(c);
            p.r.Some? && p.g.Some? && p.b.Some?
            && HexOut(p.r) + HexOut(p.g) + HexOut(p.b) == NormalizedHex(c)
  {
    ParseWellFormed(c);
    PrintDigits(Digits6(c));
  }

  /** The three bytes of six digits print as those digits in lower case. */
  lemma PrintDigits(d: string)
    requires |d| == 6 && forall i | 0 <= i < 6 :: IsHexDigit(d[i])
    ensures HexOut(Some(PairValue(d[0], d[1]))) + HexOut(Some(PairValue(d[2], d[3])))
              + HexOut(Some(PairValue(d[4], d[5])))
            == [LowerHexDigit(d[0]), LowerHexDigit(d[1]), LowerHexDigit(d[2]),
                LowerHexDigit(d[3]), LowerHexDigit(d[4]), LowerHexDigit(d[5])]
  {
    HexOutOfPair(d[0], d[1]);
    HexOutOfPair(d[2], d[3]);
    HexOutOfPair(d[4], d[5]);
  }

  /** lerpColor at a factor clamped to 0 prints the first colour's channels. */
  lemma LerpColorAtZero(color1: string, color2: string, t: real)
    requires t <= 0.0
    ensures var p := ParseChannels(color1);
            p.r.Some? && p.g.Some? && p.b.Some? && ParseChannels(color2).r.Some?
            && ParseChannels(color2).g.Some? && ParseChannels(color2).b.Some?
            ==> LerpColor(color1, color2, t) == "#" + (HexOut(p.r) + HexOut(p.g) + HexOut(p.b))
  {
    assert Clamp01(t) == 0.0;
  }

  /** lerpColor at a factor clamped to 1 prints the second colour's channels. */
  lemma LerpColorAtOne(color1: string, color2: string, t: real)
    requires t >= 1.0
    ensures var q := ParseChannels(color2);
            q.r.Some? && q.g.Some? && q.b.Some? && ParseChannels(color1).r.Some?
            && ParseChannels(color1).g.Some? && ParseChannels(color1).b.Some?
            ==> LerpColor(color1, color2, t) == "#" + (HexOut(q.r) + HexOut(q.g) + HexOut(q.b))
  {
    assert Clamp01(t) == 1.0;
  }

  /**
   * At either end of the blend lerpColor gives that end's colour, in six
   * lower-case digits.
   */
  lemma LerpColorEnds(color1: string, color2: string, t: real)
    requires WellFormedHex(color1) && WellFormedHex(color2)
    ensures t <= 0.0 ==> LerpColor(color1, color2, t) == "#" + NormalizedHex(color1)
    ensures t >= 1.0 ==> LerpColor(color1, color2, t) == "#" + NormalizedHex(color2)
  {
    HexOutWellFormed(color1);
    HexOutWellFormed(color2);
    if t <= 0.0 {
      LerpColorAtZero(color1, color2, t);
    }
    if t >= 1.0 {
      LerpColorAtOne(color1, color2, t);
    }
  }

  /**
   * A channel value parseInt can read from two characters prints in two
   * characters ("-f" for -15) and reads back as itself.
   */
  lemma HexOutRoundTrip(n: int)
    requires TwoCharValue(n)
    ensures |HexOut(Some(n))| == 2 && ParseInt16(HexOut(Some(n))) == Some(n)
  {
    if n >= 0 {
      assert HexOut(Some(n)) == HexByte(n);
      HexByteRoundTrip(n);
      HexByteDigits(n);
      HexDigitsPlain(HexByte(n));
    } else {
      var d := HexChar(-n);
      assert NatToHex(-n) == [d];
      assert HexOut(Some(n)) == ['-', d];
      ParseInt16Signed('-', [d]);
      assert [d][..0] == [];
      assert HexValue([d]) == HexDigitValue(d);
    }
  }

  /** Three channel values printed as a colour parse back to themselves. */
  lemma ParseChannelsOfHexOut(c: string, r: int, g: int, b: int)
    requires TwoCharValue(r) && TwoCharValue(g) && TwoCharValue(b)
    requires c == "#" + HexOut(Some(r)) + HexOut(Some(g)) + HexOut(Some(b))
    ensures ParseChannels(c) == Channels(Some(r), Some(g), Some(b))
  {
    HexOutRoundTrip(r);
    HexOutRoundTrip(g);
    HexOutRoundTrip(b);
    ChannelsOfPairs(c, HexOut(Some(r)), HexOut(Some(g)), HexOut(Some(b)), r, g, b);
  }

  /** "#" and three pairs that parseInt reads as r, g and b has the channels r, g and b. */
  lemma ChannelsOfPairs(c: string, x: string, y: string, z: string, r: int, g: int, b: int)
    requires |x| == 2 && |y| == 2 && |z| == 2 && c == "#" + x + y + z
    requires ParseInt16(x) == Some(r) && ParseInt16(y) == Some(g) && ParseInt16(z) == Some(b)
    ensures ParseChannels(c) == Channels(Some(r), Some(g), Some(b))
  {
    var h := x + y + z;
    ChannelsOfSix(c, h);
    ThreePairs(x, y, z);
  }

  /** The three pairs of x + y + z, cut back out. */
  lemma ThreePairs(x: string, y: string, z: string)
    requires |x| == 2 && |y| == 2 && |z| == 2
    ensures Substring(x + y + z, 0, 2) == x && Substring(x + y + z, 2, 4) == y && Substring(x + y + z, 4, 6) == z
  {
    var h := x + y + z;
    assert h[..4] == x + y;
    assert h[4..] == z;
    assert h[4..6] == z;
  }

  /** "#" and six characters: the channels are read from the pairs of the six. */
  lemma ChannelsOfSix(c: string, h: string)
    requires |h| == 6 && c == "#" + h
    ensures ParseChannels(c) == Channels(PairAt(h, 0), PairAt(h, 2), PairAt(h, 4))
  {
    assert ReplaceFirst(c, '#', "") == h;
  }

  /**
   * When both colours parse, reading lerpColor's output back gives the
   * rounded blends of the channels, each between the two inputs' values.
   */
  lemma LerpColorChannelsBetween(color1: string, color2: string, t: real)
    requires var p := ParseChannels(color1);
             p.r.Some? && p.g.Some? && p.b.Some?
    requires var q := ParseChannels(color2);
             q.r.Some? && q.g.Some? && q.b.Some?
    ensures var p := ParseChannels(color1);
            var q := ParseChannels(color2);
            var k := Clamp01(t);
            ParseChannels(LerpColor(color1, color2, t))
              == Channels(BlendChannel(p.r, q.r, k), BlendChannel(p.g, q.g, k), BlendChannel(p.b, q.b, k))
  {
    var p := ParseChannels(color1);
    var q := ParseChannels(color2);
    var k := Clamp01(t);
    var r := BlendChannel(p.r, q.r, k).value;
    var g := BlendChannel(p.g, q.g, k).value;
    var b := BlendChannel(p.b, q.b, k).value;
    assert LerpColor(color1, color2, t) == "#" + HexOut(Some(r)) + HexOut(Some(g)) + HexOut(Some(b));
    ParseChannelsOfHexOut(LerpColor(color1, color2, t), r, g, b);
  }

  // ---------------------------------------------------------------------
  // lerpRgba
  // ---------------------------------------------------------------------

  /** The number of white-space characters s starts with. */
  function LeadingSpaces(s: string): (n: nat)
    ensures n <= |s|
    ensures n < |s| ==> !IsSpace(s[n])
  {
    if s != [] && IsSpace(s[0]) then 1 + LeadingSpaces(s[1..]) else 0
  }

  /** The number of decimal digits s starts with. */
  function LeadingDigits(s: string): (n: nat)
    ensures n <= |s|
    ensures AllDigits(s[..n])
    ensures n < |s| ==> !IsDigit(s[n])
  {
    if s != [] && IsDigit(s[0]) then
      var n := 1 + LeadingDigits(s[1..]);
      assert s[..n] == [s[0]] + s[1..][..n - 1];
      n
    else 0
  }

  /** A character of the class [\d.]. */
  predicate IsAlphaChar(c: char)
  {
    IsDigit(c) || c == '.'
  }

  /** The number of [\d.] characters s starts with. */
  function LeadingAlpha(s: string): (n: nat)
    ensures n <= |s|
    ensures forall k | 0 <= k < n :: IsAlphaChar(s[k])
    ensures n < |s| ==> !IsAlphaChar(s[n])
  {
    if s != [] && IsAlphaChar(s[0]) then 1 + LeadingAlpha(s[1..]) else 0
  }

  /** s without its leading white space (the regular expression's \s*). */
  function SkipSpaces(s: string): (r: string)
    ensures |r| <= |s|
  {
    s[LeadingSpaces(s)..]
  }

  /** The four capture groups of /rgba?\(\s*(\d+)\s*,\s*(\d+)\s*,\s*(\d+)\s*(?:,\s*([\d.]+))?\s*\)/. */
  datatype RgbaMatch = RgbaMatch(r: string, g: string, b: string, a: Option<string>)

  predicate GoodMatch(m: RgbaMatch)
  {
    && |m.r| > 0 && AllDigits(m.r)
    && |m.g| > 0 && AllDigits(m.g)
    && |m.b| > 0 && AllDigits(m.b)
    && (m.a.Some? ==> |m.a.value| > 0 && forall k | 0 <= k < |m.a.value| :: IsAlphaChar(m.a.value[k]))
  }

  /** `\s*(\d+)\s*,` at the start of s: the digits and what follows the comma. */
  function CommaField(s: string): (f: Option<(string, string)>)
    ensures f.Some? ==> |f.value.0| > 0 && AllDigits(f.value.0) && |f.value.1| < |s|
  {
    var t := SkipSpaces(s);
    var n := LeadingDigits(t);
    var u := SkipSpaces(t[n..]);
    if n > 0 && u != [] && u[0] == ',' then Some((t[..n], u[1..])) else None
  }

  /**
   * `\s*(\d+)\s*(?:,\s*([\d.]+))?\s*\)` at the start of s: the third number
   * and the alpha text if there is one.
   */
  function LastFields(s: string): (f: Option<(string, Option<string>)>)
    ensures f.Some? ==> |f.value.0| > 0 && AllDigits(f.value.0)
    ensures f.Some? && f.value.1.Some? ==>
              |f.value.1.value| > 0 && forall k | 0 <= k < |f.value.1.value| :: IsAlphaChar(f.value.1.value[k])
  {
    var t := SkipSpaces(s);
    var n := LeadingDigits(t);
    var u := SkipSpaces(t[n..]);
    if n == 0 || u == [] then None
    else if u[0] == ')' then Some((t[..n], None))
    else if u[0] == ',' then
      var v := SkipSpaces(u[1..]);
      var m := LeadingAlpha(v);
      var w := SkipSpaces(v[m..]);
      if m > 0 && w != [] && w[0] == ')' then Some((t[..n], Some(v[..m]))) else None
    else None
  }

  /**
   * The pattern matched at the start of s. Every part of it is determined by
   * the characters (runs of \s, \d and [\d.] are followed by a character
   * outside them), so backtracking never finds another match at the same
   * place.
   */
  function MatchAt(s: string): (m: Option<RgbaMatch>)
    ensures m.Some? ==> GoodMatch(m.value)
  {
    if !(|s| >= 3 && s[..3] == "rgb") then None
    else
      var p := if |s| > 3 && s[3] == 'a' then s[4..] else s[3..];
      if !(p != [] && p[0] == '(') then None
      else match CommaField(p[1..])
        case None => None
        case Some(f1) =>
          match CommaField(f1.1)
          case None => None
          case Some(f2) =>
            match LastFields(f2.1)
            case None => None
            case Some(f3) => Some(RgbaMatch(f1.0, f2.0, f3.0, f3.1))
  }

  /** String#match: the match at the first position where the pattern matches. */
  function FirstMatch(s: string): (m: Option<RgbaMatch>)
    ensures m.Some? ==> GoodMatch(m.value)
  {
    if MatchAt(s).Some? then MatchAt(s)
    else if s == [] then None
    else FirstMatch(s[1..])
  }

  function Pow10(n: nat): (p: nat)
    ensures p >= 1
  {
    if n == 0 then 1 else 10 * Pow10(n - 1)
  }

  /** The value of the digits after a decimal point. */
  function Fraction(d: string): real
    requires AllDigits(d)
  {
    DecimalValue(d) as real / Pow10(|d|) as real
  }

  /** parseFloat of a string of [\d.]: digits, optionally '.' and more digits; NaN without a digit. */
  function ParseDecimal(t: string): (v: Option<real>)
    ensures v.Some? ==> v.value >= 0.0
  {
    var i := LeadingDigits(t);
    if i < |t| && t[i] == '.' then
      var f := t[i + 1..];
      var j := LeadingDigits(f);
      if i == 0 && j == 0 then None
      else Some(DecimalValue(t[..i]) as real + Fraction(f[..j]))
    else if i == 0 then None
    else Some(DecimalValue(t[..i]) as real)
  }

  /** A parsed colour; an alpha of None is NaN. */
  datatype Rgba = Rgba(r: nat, g: nat, b: nat, a: Option<real>)

  /** parse(s) of lerpRgba: black with alpha 1 when the pattern is absent, alpha 1 when the alpha group is. */
  function ParseRgba(s: string): (c: Rgba)
    ensures c.a.Some? ==> c.a.value >= 0.0
  {
    match FirstMatch(s)
    case None => Rgba(0, 0, 0, Some(1.0))
    case Some(m) =>
      Rgba(DecimalValue(m.r), DecimalValue(m.g), DecimalValue(m.b),
           if m.a.None? then Some(1.0) else ParseDecimal(m.a.value))
  }

  /**
   * `${+x.toFixed(3)}` for x = k / 1000 >= 0: the integer part, then the
   * thousandths without trailing zeros.
   */
  function Thousandths(k: nat): (s: string)
  {
    var whole := NatToDecimal(k / 1000);
    var f := k % 1000;
    if f == 0 then whole else whole + ("." + FractionText(f))
  }

  /** A number of thousandths. */
  function Milli(k: nat): real
  {
    k as real / 1000.0
  }

  /** The alpha text: x.toFixed(3) read back and printed; NaN stays "NaN". */
  function AlphaText(a: Option<nat>): string
  {
    match a
    case None => "NaN"
    case Some(k) => Thousandths(k)
  }

  /** `rgba(${r},${g},${b},${a})` with the alpha given in thousandths. */
  function FormatRgba(r: nat, g: nat, b: nat, a: Option<nat>): string
  {
    "rgba(" + (NatToDecimal(r) + ("," + (NatToDecimal(g) + ("," + (NatToDecimal(b) + ("," + (AlphaText(a) + ")")))))))
  }

  /** The blended alpha in thousandths: Math.round-like toFixed(3) of a non-negative blend. */
  function BlendAlpha(a1: Option<real>, a2: Option<real>, t: real): (k: Option<nat>)
    requires 0.0 <= t <= 1.0
    requires a1.Some? ==> a1.value >= 0.0
    requires a2.Some? ==> a2.value >= 0.0
    ensures k.Some? <==> a1.Some? && a2.Some?
  {
    if a1.None? || a2.None? then None
    else
      BlendBetween(a1.value, a2.value, t);
      var x := Blend(a1.value, a2.value, t);
      assert x >= 0.0;
      Some(Round(x * 1000.0))
  }

  /** lerpRgba(rgba1, rgba2, t). */
  function LerpRgba(rgba1: string, rgba2: string, t: real): (c: string)
    ensures |c| > 6 && c[..5] == "rgba(" && c[|c| - 1] == ')'
  {
    var k := Clamp01(t);
    var p := ParseRgba(rgba1);
    var q := ParseRgba(rgba2);
    FormatRgba(BlendChannel(Some(p.r), Some(q.r), k).value,
               BlendChannel(Some(p.g), Some(q.g), k).value,
               BlendChannel(Some(p.b), Some(q.b), k).value,
               BlendAlpha(p.a, q.a, k))
  }

  // ---------------------------------------------------------------------
  // Reading an rgba() string back
  // ---------------------------------------------------------------------

  /** A run of digits followed by a non-digit is counted whole. */
  lemma {:induction false} LeadingDigitsOf(s: string, d: string, rest: string)
    requires AllDigits(d) && (rest == [] || !IsDigit(rest[0])) && s == d + rest
    ensures LeadingDigits(s) == |d|
    decreases |d|
  {
    if d != [] {
      assert s[1..] == d[1..] + rest;
      assert IsDigit(d[0]);
      LeadingDigitsOf(s[1..], d[1..], rest);
    }
  }

  lemma {:induction false} LeadingAlphaOf(s: string, d: string, rest: string)
    requires (forall k | 0 <= k < |d| :: IsAlphaChar(d[k])) && (rest == [] || !IsAlphaChar(rest[0]))
    requires s == d + rest
    ensures LeadingAlpha(s) == |d|
    decreases |d|
  {
    if d != [] {
      assert s[1..] == d[1..] + rest;
      assert IsAlphaChar(d[0]);
      LeadingAlphaOf(s[1..], d[1..], rest);
    }
  }

  /** A string that starts with a digit, a ',' or a ')' has no leading white space. */
  lemma NoSpaces(s: string)
    requires s != [] && (IsDigit(s[0]) || s[0] == ',' || s[0] == ')')
    ensures SkipSpaces(s) == s
  {
  }

  /** Digits and a comma are read as one field. */
  lemma CommaFieldOf(s: string, d: string, rest: string)
    requires |d| > 0 && AllDigits(d) && s == d + ("," + rest)
    ensures CommaField(s) == Some((d, rest))
  {
    assert s[0] == d[0];
    NoSpaces(s);
    LeadingDigitsOf(s, d, "," + rest);
    assert s[..|d|] == d && s[|d|..] == "," + rest;
    NoSpaces("," + rest);
    assert ("," + rest)[1..] == rest;
  }

  /** The third number, a comma, the alpha text and ')' are read as the last two groups. */
  lemma LastFieldsOf(s: string, d: string, a: string)
    requires |d| > 0 && AllDigits(d)
    requires |a| > 0 && IsDigit(a[0]) && forall i | 0 <= i < |a| :: IsAlphaChar(a[i])
    requires s == d + ("," + (a + ")"))
    ensures LastFields(s) == Some((d, Some(a)))
  {
    assert s[0] == d[0];
    NoSpaces(s);
    LeadingDigitsOf(s, d, "," + (a + ")"));
    assert s[..|d|] == d && s[|d|..] == "," + (a + ")");
    NoSpaces("," + (a + ")"));
    var v := ("," + (a + ")"))[1..];
    assert v == a + ")";
    NoSpaces(v);
    LeadingAlphaOf(v, a, ")");
    assert v[..|a|] == a && v[|a|..] == ")";
    NoSpaces(")");
  }

  /** The pattern reads "rgba(R,G,B,A)" as its four groups. */
  lemma MatchPieces(s: string, R: string, G: string, B: string, A: string)
    requires |R| > 0 && AllDigits(R) && |G| > 0 && AllDigits(G) && |B| > 0 && AllDigits(B)
    requires |A| > 0 && IsDigit(A[0]) && forall i | 0 <= i < |A| :: IsAlphaChar(A[i])
    requires s == "rgba(" + (R + ("," + (G + ("," + (B + ("," + (A + ")")))))))
    ensures FirstMatch(s) == Some(RgbaMatch(R, G, B, Some(A)))
  {
    var rest1 := G + ("," + (B + ("," + (A + ")"))));
    var rest2 := B + ("," + (A + ")"));
    var body := R + ("," + rest1);
    RgbaPrefix(s, body);
    CommaFieldOf(body, R, rest1);
    CommaFieldOf(rest1, G, rest2);
    LastFieldsOf(rest2, B, A);
    MatchAtOf(s, body, R, rest1, G, rest2, B, Some(A));
  }

  /** MatchAt reads the three fields in turn after "rgba(". */
  lemma MatchAtOf(s: string, body: string, R: string, rest1: string, G: string, rest2: string,
                  B: string, A: Option<string>)
    requires |s| > 3 && s[..3] == "rgb" && s[3] == 'a'
    requires s[4..] != [] && s[4..][0] == '(' && s[4..][1..] == body
    requires CommaField(body) == Some((R, rest1)) && CommaField(rest1) == Some((G, rest2))
    requires LastFields(rest2) == Some((B, A))
    ensures FirstMatch(s) == Some(RgbaMatch(R, G, B, A))
  {
    assert MatchAt(s) == Some(RgbaMatch(R, G, B, A));
  }

  /** "rgba(" is the pattern's opening: what MatchAt reads next is what follows it. */
  lemma RgbaPrefix(s: string, body: string)
    requires s == "rgba(" + body
    ensures |s| >= 3 && s[..3] == "rgb" && |s| > 3 && s[3] == 'a'
    ensures s[4..] != [] && s[4..][0] == '(' && s[4..][1..] == body
  {
    assert s[4..] == "(" + body;
  }

  /** The string the lerpRgba output has, read back by the pattern. */
  lemma MatchFormatted(r: nat, g: nat, b: nat, k: nat)
    ensures FirstMatch(FormatRgba(r, g, b, Some(k)))
            == Some(RgbaMatch(NatToDecimal(r), NatToDecimal(g), NatToDecimal(b), Some(Thousandths(k))))
  {
    ThousandthsShape(k);
    MatchPieces(FormatRgba(r, g, b, Some(k)), NatToDecimal(r), NatToDecimal(g), NatToDecimal(b), Thousandths(k));
  }

  /** The integer part of Thousandths is a printed number; the rest is '.' and digits. */
  lemma ThousandthsShape(k: nat)
    ensures var t := Thousandths(k);
            |t| > 0 && IsDigit(t[0]) && forall i | 0 <= i < |t| :: IsAlphaChar(t[i])
  {
  }

  lemma DecimalOfDigits(a: nat, b: nat, c: nat)
    requires a < 10 && b < 10 && c < 10
    ensures DecimalValue([DigitChar(a)]) == a
    ensures DecimalValue([DigitChar(a), DigitChar(b)]) == 10 * a + b
    ensures DecimalValue([DigitChar(a), DigitChar(b), DigitChar(c)]) == 100 * a + 10 * b + c
  {
    assert [DigitChar(a)][..0] == [];
    assert [DigitChar(a), DigitChar(b)][..1] == [DigitChar(a)];
    assert [DigitChar(a), DigitChar(b), DigitChar(c)][..2] == [DigitChar(a), DigitChar(b)];
  }

  /** parseFloat of a run of digits. */
  lemma ParseWhole(w: string)
    requires |w| > 0 && AllDigits(w)
    ensures ParseDecimal(w) == Some(DecimalValue(w) as real)
  {
    LeadingDigitsOf(w, w, []);
    assert w + [] == w;
    assert w[..|w|] == w;
  }

  /** parseFloat of digits, '.', digits. */
  lemma ParseFraction(t: string, w: string, f: string)
    requires |w| > 0 && AllDigits(w) && AllDigits(f) && t == w + ("." + f)
    ensures ParseDecimal(t) == Some(DecimalValue(w) as real + Fraction(f))
  {
    var i := |w|;
    assert LeadingDigits(t) == i by {
      LeadingDigitsOf(t, w, "." + f);
    }
    assert t[..i] == w && t[i] == '.' && t[i + 1..] == f;
    assert LeadingDigits(f) == |f| && f[..|f|] == f by {
      assert f + [] == f;
      LeadingDigitsOf(f, f, []);
    }
    ParseDecimalDot(t, i, |f|);
  }

  /** parseFloat reads the digits before the point and those after it. */
  lemma ParseDecimalDot(t: string, i: nat, j: nat)
    requires 0 < i < |t| && LeadingDigits(t) == i && t[i] == '.' && j == LeadingDigits(t[i + 1..])
    ensures ParseDecimal(t) == Some(DecimalValue(t[..i]) as real + Fraction(t[i + 1..][..j]))
  {
  }

  /** The alpha text reads back as the thousandths it stands for. */
  lemma ParseThousandths(k: nat)
    ensures ParseDecimal(Thousandths(k)) == Some(Milli(k))
  {
    if k % 1000 == 0 {
      ThousandthsWhole(k);
    } else {
      ThousandthsFraction(k);
    }
  }

  lemma ThousandthsFraction(k: nat)
    requires k % 1000 != 0
    ensures ParseDecimal(Thousandths(k)) == Some(Milli(k))
  {
    var f := k % 1000;
    var W := NatToDecimal(k / 1000);
    assert Thousandths(k) == W + ("." + FractionText(f));
    ParseFraction(Thousandths(k), W, FractionText(f));
    FractionTextValue(f);
    DecimalRoundTrip(k / 1000);
    MilliOf(k, k / 1000, f);
  }

  lemma ThousandthsWhole(k: nat)
    requires k % 1000 == 0
    ensures ParseDecimal(Thousandths(k)) == Some(Milli(k))
  {
    var W := NatToDecimal(k / 1000);
    assert Thousandths(k) == W;
    ParseWhole(W);
    DecimalRoundTrip(k / 1000);
    MilliOf(k, k / 1000, 0);
  }

  /** k / 1000 split into its whole part q and its thousandths f. */
  lemma MilliOf(k: nat, q: nat, f: nat)
    requires k == 1000 * q + f
    ensures Milli(k) == q as real + f as real / 1000.0
  {
  }

  /** The one to three digits Thousandths prints after the point for 0 < f < 1000. */
  function FractionText(f: nat): (d: string)
    requires 0 < f < 1000
    ensures AllDigits(d) && 1 <= |d| <= 3
  {
    if f % 100 == 0 then [DigitChar(f / 100)]
    else if f % 10 == 0 then [DigitChar(f / 100), DigitChar(f / 10 % 10)]
    else [DigitChar(f / 100), DigitChar(f / 10 % 10), DigitChar(f % 10)]
  }

  /** The digits after the point stand for the thousandths f. */
  lemma FractionTextValue(f: nat)
    requires 0 < f < 1000
    ensures Fraction(FractionText(f)) == Milli(f)
  {
    var a, b, c := f / 100, f / 10 % 10, f % 10;
    assert f == 100 * a + 10 * b + c;
    if f % 100 == 0 {
      assert b == 0 && c == 0;
      FractionOfDigits(a, 0, 0, 1);
      assert FractionText(f) == [DigitChar(a), DigitChar(0), DigitChar(0)][..1];
    } else if f % 10 == 0 {
      assert c == 0;
      FractionOfDigits(a, b, 0, 2);
      assert FractionText(f) == [DigitChar(a), DigitChar(b), DigitChar(0)][..2];
    } else {
      FractionOfDigits(a, b, c, 3);
      assert FractionText(f) == [DigitChar(a), DigitChar(b), DigitChar(c)][..3];
    }
  }

  /** The value of one, two or three digits after a decimal point. */
  lemma FractionOfDigits(a: nat, b: nat, c: nat, n: nat)
    requires a < 10 && b < 10 && c < 10 && 1 <= n <= 3
    requires n < 3 ==> c == 0
    requires n < 2 ==> b == 0
    ensures var d := [DigitChar(a), DigitChar(b), DigitChar(c)][..n];
            Fraction(d) == Milli(100 * a + 10 * b + c)
  {
    DecimalOfDigits(a, b, c);
    assert Pow10(1) == 10 && Pow10(2) == 100 && Pow10(3) == 1000;
    var e := [DigitChar(a), DigitChar(b), DigitChar(c)];
    if n == 1 {
      assert e[..1] == [DigitChar(a)];
    } else if n == 2 {
      assert e[..2] == [DigitChar(a), DigitChar(b)];
    } else {
      assert e[..3] == e;
    }
  }

  /** An rgba() string as lerpRgba prints it reads back as its numbers. */
  lemma ParseFormatted(s: string, r: nat, g: nat, b: nat, k: nat)
    requires s == FormatRgba(r, g, b, Some(k))
    ensures ParseRgba(s) == Rgba(r, g, b, Some(Milli(k)))
  {
    MatchFormatted(r, g, b, k);
    DecimalRoundTrip(r);
    DecimalRoundTrip(g);
    DecimalRoundTrip(b);
    ParseThousandths(k);
  }

  /** lerpRgba prints the blends of the two parsed colours. */
  lemma LerpRgbaOf(rgba1: string, rgba2: string, t: real, p: Rgba, q: Rgba)
    requires p == ParseRgba(rgba1) && q == ParseRgba(rgba2)
    ensures var k := Clamp01(t);
            LerpRgba(rgba1, rgba2, t)
              == FormatRgba(BlendChannel(Some(p.r), Some(q.r), k).value,
                            BlendChannel(Some(p.g), Some(q.g), k).value,
                            BlendChannel(Some(p.b), Some(q.b), k).value,
                            BlendAlpha(p.a, q.a, k))
  {
  }

  /** The alpha k / 1000 blended with weight 0 (as the first end) or 1 (as the second) is k again. */
  lemma BlendAlphaEnd(k: nat, y: real)
    requires y >= 0.0
    ensures BlendAlpha(Some(Milli(k)), Some(y), 0.0) == Some(k)
    ensures BlendAlpha(Some(y), Some(Milli(k)), 1.0) == Some(k)
  {
    var x := Milli(k);
    assert x * 1000.0 == k as real;
    RoundOfInt(k);
    BlendBetween(x, y, 0.0);
    BlendBetween(y, x, 1.0);
  }

  /**
   * At either end of the blend lerpRgba gives back that end's rgba() string
   * when it is in the printed form (and the other end's alpha is a number).
   */
  lemma LerpRgbaEnds(s: string, r: nat, g: nat, b: nat, k: nat, other: string, t: real)
    requires s == FormatRgba(r, g, b, Some(k))
    requires ParseRgba(other).a.Some?
    ensures t <= 0.0 ==> LerpRgba(s, other, t) == s
    ensures t >= 1.0 ==> LerpRgba(other, s, t) == s
  {
    ParseFormatted(s, r, g, b, k);
    var p := ParseRgba(s);
    var q := ParseRgba(other);
    assert p == Rgba(r, g, b, Some(Milli(k)));
    BlendAlphaEnd(k, q.a.value);
    if t <= 0.0 {
      assert Clamp01(t) == 0.0;
      LerpRgbaOf(s, other, t, p, q);
    }
    if t >= 1.0 {
      assert Clamp01(t) == 1.0;
      LerpRgbaOf(other, s, t, q, p);
    }
  }

  /**
   * Reading lerpRgba's output back gives the rounded channel blends, each
   * between the inputs' channels, and the alpha blend rounded to thousandths.
   */
  lemma LerpRgbaReadBack(rgba1: string, rgba2: string, t: real, p: Rgba, q: Rgba, out: string)
    requires p == ParseRgba(rgba1) && q == ParseRgba(rgba2) && p.a.Some? && q.a.Some?
    requires out == LerpRgba(rgba1, rgba2, t)
    ensures ParseRgba(out).r == BlendChannel(Some(p.r), Some(q.r), Clamp01(t)).value
    ensures ParseRgba(out).g == BlendChannel(Some(p.g), Some(q.g), Clamp01(t)).value
    ensures ParseRgba(out).b == BlendChannel(Some(p.b), Some(q.b), Clamp01(t)).value
    ensures ParseRgba(out).a == Some(Milli(BlendAlpha(p.a, q.a, Clamp01(t)).value))
  {
    var k := Clamp01(t);
    var R := BlendChannel(Some(p.r), Some(q.r), k).value;
    var G := BlendChannel(Some(p.g), Some(q.g), k).value;
    var B := BlendChannel(Some(p.b), Some(q.b), k).value;
    var K := BlendAlpha(p.a, q.a, k).value;
    LerpRgbaOf(rgba1, rgba2, t, p, q);
    assert out == FormatRgba(R, G, B, Some(K));
    ParseFormatted(out, R, G, B, K);
    assert ParseRgba(out) == Rgba(R, G, B, Some(Milli(K)));
  }
}

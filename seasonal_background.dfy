/**
 * The seasonal particle background: the per-term animation table, the
 * particle factory and the frame step that rebuilds the pool when the solar
 * term changes, clamps the frame time, fades the pool in, moves every
 * particle and wraps it around the edges of the window.
 *
 * Math.random and the Math.sin / Math.cos values a frame reads are
 * parameters with their ranges stated; the name of the current term (from
 * getSekkiTransition) and the window are the frame's input. Drawing on the
 * canvas and the wind timer are not modelled; the wind is a field the frame
 * reads.
 */
module SeasonalBackground {
  import opened Js
  import opened SekkiColor
  import Sekki

  // ---------------------------------------------------------------------
  // Tables
  // ---------------------------------------------------------------------

  /** The particle types, pool size and colours of one solar term. */
  datatype AnimConfig = AnimConfig(types: seq<string>, count: nat, colors: seq<string>)

  const SEKKI_ANIMATIONS: map<string, AnimConfig> := map[
    "小寒" := AnimConfig(["snow", "sparkle"], 36, ["#FFFFFF", "#E0FFFF", "#F0F8FF"]),
    "大寒" := AnimConfig(["snow", "sparkle"], 56, ["#FFFFFF", "#DDEEFF", "#C6E2FF"]),
    "立冬" := AnimConfig(["leaf", "sparkle"], 28, ["#A0522D", "#8B4513", "#D2691E"]),
    "小雪" := AnimConfig(["snow"], 28, ["#FFFFFF", "#F5F5F5", "#E6E6FA"]),
    "大雪" := AnimConfig(["snow"], 52, ["#FFFFFF", "#FFFAFA", "#F0FFFF"]),
    "冬至" := AnimConfig(["sparkle", "snow"], 44, ["#FFD700", "#FFA500", "#FFFAF0"]),
    "立春" := AnimConfig(["petal", "sparkle"], 34, ["#FFB6C1", "#FFC0CB", "#FF69B4"]),
    "雨水" := AnimConfig(["raindrop", "petal"], 42, ["#ADD8E6", "#B0E0E6", "#87CEFA"]),
    "啓蟄" := AnimConfig(["leaf", "petal"], 30, ["#9ACD32", "#ADFF2F", "#7CFC00"]),
    "春分" := AnimConfig(["petal", "sparkle"], 40, ["#FFC0CB", "#FFB6C1", "#DB7093"]),
    "清明" := AnimConfig(["petal", "bubble"], 36, ["#AFEEEE", "#E0FFFF", "#00CED1"]),
    "穀雨" := AnimConfig(["raindrop", "leaf"], 48, ["#87CEEB", "#ADD8E6", "#B0C4DE"]),
    "立夏" := AnimConfig(["leaf", "sparkle"], 34, ["#32CD32", "#00FF00", "#7FFF00"]),
    "小満" := AnimConfig(["sparkle", "firefly"], 40, ["#FFFF00", "#FFFACD", "#FFD700"]),
    "芒種" := AnimConfig(["leaf", "seed"], 44, ["#556B2F", "#6B8E23", "#808000"]),
    "夏至" := AnimConfig(["sparkle", "firefly"], 54, ["#FF4500", "#FFD700", "#FFA500"]),
    "小暑" := AnimConfig(["sparkle", "firefly"], 46, ["#4682B4", "#5F9EA0", "#00BFFF"]),
    "大暑" := AnimConfig(["sparkle", "firefly"], 64, ["#FF6347", "#FF4500", "#FF0000"]),
    "立秋" := AnimConfig(["leaf", "sparkle"], 32, ["#CD853F", "#D2B48C", "#F4A460"]),
    "処暑" := AnimConfig(["leaf", "seed"], 38, ["#DAA520", "#B8860B", "#CD853F"]),
    "白露" := AnimConfig(["bubble", "sparkle"], 28, ["#F0F8FF", "#F8F8FF", "#FFFFFF"]),
    "秋分" := AnimConfig(["leaf", "sparkle"], 42, ["#DC143C", "#B22222", "#FF4500"]),
    "寒露" := AnimConfig(["raindrop", "leaf"], 36, ["#6A5ACD", "#836FFF", "#9370DB"]),
    "霜降" := AnimConfig(["sparkle", "snow"], 30, ["#E6E6FA", "#D8BFD8", "#DDA0DD"])
  ]

  /** A range [min, max) a size or a speed is drawn from. */
  datatype Range = Range(min: real, max: real)

  /** TYPE_SIZE[t] || TYPE_SIZE.snow: the size range of a type; a type not in the table takes snow's. */
  function SizeRange(t: string): (r: Range)
    ensures 0.0 < r.min < r.max
  {
    match t
    case "snow" => Range(1.8, 3.6)
    case "petal" => Range(4.0, 10.0)
    case "leaf" => Range(4.0, 10.0)
    case "sparkle" => Range(1.5, 3.5)
    case "raindrop" => Range(3.0, 5.0)
    case "firefly" => Range(1.5, 3.2)
    case "bubble" => Range(3.0, 7.0)
    case "seed" => Range(3.0, 6.0)
    case _ => Range(1.8, 3.6)
  }

  /** TYPE_SPEED[t] || TYPE_SPEED.snow. */
  function SpeedRange(t: string): (r: Range)
    ensures 0.0 < r.min < r.max
  {
    match t
    case "snow" => Range(0.3, 0.8)
    case "petal" => Range(0.5, 1.2)
    case "leaf" => Range(0.6, 1.4)
    case "sparkle" => Range(0.2, 0.6)
    case "raindrop" => Range(1.6, 3.0)
    case "firefly" => Range(0.05, 0.15)
    case "bubble" => Range(0.15, 0.35)
    case "seed" => Range(0.4, 0.9)
    case _ => Range(0.3, 0.8)
  }

  /** The types the two tables list. */
  const KNOWN_TYPES: set<string> := {"snow", "petal", "leaf", "sparkle", "raindrop", "firefly", "bubble", "seed"}

  /** A type the tables do not list moves and grows like snow. */
  lemma UnknownTypeIsSnow(t: string)
    requires t !in KNOWN_TYPES
    ensures SizeRange(t) == SizeRange("snow") && SpeedRange(t) == SpeedRange("snow")
  {
  }

  /** Every one of the 24 term names has an animation, with types and colours to pick from. */
  lemma AnimationsCoverTerms()
    ensures forall name | name in Sekki.SEKKI_CALENDAR_ORDER ::
              name in SEKKI_ANIMATIONS && ConfigUsable(SEKKI_ANIMATIONS[name])
  {
  }

  predicate ConfigUsable(config: AnimConfig)
  {
    |config.types| > 0 && |config.colors| > 0 && config.count > 0
  }

  // ---------------------------------------------------------------------
  // Helpers
  // ---------------------------------------------------------------------

  /** How a particle moves. */
  datatype Mode = Swirl | Fall | Rise | Wander

  /** pickModeForType(t), with r the Math.random() draw it reads for petals, leaves and seeds. */
  function PickModeForType(t: string, r: real): (m: Mode)
    ensures t == "bubble" ==> m == Rise
    ensures t == "firefly" ==> m == Wander
    ensures t in {"petal", "leaf", "seed"} ==> (m == Swirl <==> r < 0.5) && (m == Fall <==> r >= 0.5)
    ensures t !in {"petal", "leaf", "seed", "bubble", "firefly"} ==> m == Fall
  {
    if t == "petal" || t == "leaf" || t == "seed" then (if r < 0.5 then Swirl else Fall)
    else if t == "bubble" then Rise
    else if t == "firefly" then Wander
    else Fall
  }

  /** rand(min, max) for a draw r. */
  function Rand(lo: real, hi: real, r: real): (v: real)
    requires lo < hi && Unit(r)
    ensures lo <= v < hi
  {
    UnitBelow(r, hi - lo, r * (hi - lo));
    r * (hi - lo) + lo
  }

  // ---------------------------------------------------------------------
  // hexToRgba
  // ---------------------------------------------------------------------

  /**
   * hexToRgba(hex, a), with a as the text `${a}` prints. The digits are read
   * with parseInt(…, 16); the channels are bits 16-23, 8-15 and 0-7 of the
   * value in two's complement (what `>>` and `& 255` pick out, and what
   * Euclidean `/` and `%` give for a negative value too), and a NaN reads
   * as 0 in the bitwise operators.
   */
  function HexToRgba(hex: string, alphaText: string): (c: string)
    ensures StartsWith(hex, "rgb") ==> c == hex
    ensures !StartsWith(hex, "rgb") ==>
              exists r: nat, g: nat, b: nat | r < 256 && g < 256 && b < 256 :: c == RgbaText(r, g, b, alphaText)
  {
    if StartsWith(hex, "rgb") then hex
    else
      var v := match ParseInt16(ExpandHex(hex)) case None => 0 case Some(n) => n;
      RgbaText(v / 65536 % 256, v / 256 % 256, v % 256, alphaText)
  }

  /** The rgba text of three channels and an alpha. */
  function RgbaText(r: nat, g: nat, b: nat, alphaText: string): string
  {
    "rgba(" + NatToDecimal(r) + "," + NatToDecimal(g) + "," + NatToDecimal(b) + "," + alphaText + ")"
  }

  /** Six hexadecimal digits are the value of their three pairs. */
  lemma HexValueOfSix(d: string)
    requires |d| == 6 && forall i | 0 <= i < 6 :: IsHexDigit(d[i])
    ensures HexValue(d) == PairValue(d[0], d[1]) * 65536 + PairValue(d[2], d[3]) * 256 + PairValue(d[4], d[5])
  {
    assert d[..6] == d;
    assert d[..5][..4] == d[..4] && d[..4][..3] == d[..3] && d[..3][..2] == d[..2];
    assert d[..2][..1] == d[..1] && d[..1][..0] == [];
    assert HexValue(d[..1]) == HexDigitValue(d[0]);
    assert HexValue(d[..2]) == PairValue(d[0], d[1]);
    assert HexValue(d[..3]) == PairValue(d[0], d[1]) * 16 + HexDigitValue(d[2]);
    assert HexValue(d[..4]) == PairValue(d[0], d[1]) * 256 + PairValue(d[2], d[3]);
    assert HexValue(d[..5]) == (PairValue(d[0], d[1]) * 256 + PairValue(d[2], d[3])) * 16 + HexDigitValue(d[4]);
  }

  /** parseInt(…, 16) of six hexadecimal digits reads all six. */
  lemma ParseSix(d: string)
    requires |d| == 6 && forall i | 0 <= i < 6 :: IsHexDigit(d[i])
    ensures ParseHex(d) == Some(PairValue(d[0], d[1]) * 65536 + PairValue(d[2], d[3]) * 256 + PairValue(d[4], d[5]))
  {
    assert HexPrefixLength(d) == 6;
    assert d[..6] == d;
    HexValueOfSix(d);
  }

  /** The channels of value a * 65536 + b * 256 + c, three bytes. */
  lemma Bytes(a: nat, b: nat, c: nat)
    requires a < 256 && b < 256 && c < 256
    ensures var v := a * 65536 + b * 256 + c;
            v / 65536 % 256 == a && v / 256 % 256 == b && v % 256 == c
  {
    var v := a * 65536 + b * 256 + c;
    assert v / 65536 == a;
    assert v / 256 == a * 256 + b;
  }

  /**
   * "#RRGGBB" and "#RGB" (each digit doubled) become rgba text of the three
   * pairs' values.
   */
  lemma HexToRgbaOfHex(hex: string, alphaText: string)
    requires WellFormedHex(hex) && |hex| != 9
    ensures var d := Digits6(hex);
            HexToRgba(hex, alphaText)
            == RgbaText(PairValue(d[0], d[1]), PairValue(d[2], d[3]), PairValue(d[4], d[5]), alphaText)
  {
    var d := Digits6(hex);
    var a, b, c := PairValue(d[0], d[1]), PairValue(d[2], d[3]), PairValue(d[4], d[5]);
    var v := a * 65536 + b * 256 + c;
    assert !StartsWith(hex, "rgb") by {
      assert hex[0] == '#';
    }
    assert ParseInt16(ExpandHex(hex)) == Some(v) by {
      ExpandedDigits(hex);
      ParseSix(d);
      HexDigitsPlain(d);
    }
    HexToRgbaOfValue(hex, alphaText, v);
    SixDigitBytes(d);
  }

  /** The value of six hex digits has their three pairs as its bytes. */
  lemma SixDigitBytes(d: string)
    requires |d| == 6 && forall i | 0 <= i < 6 :: IsHexDigit(d[i])
    ensures var a, b, c := PairValue(d[0], d[1]), PairValue(d[2], d[3]), PairValue(d[4], d[5]);
            var v := a * 65536 + b * 256 + c;
            v / 65536 % 256 == a && v / 256 % 256 == b && v % 256 == c
  {
    HexDigitBound(d[0], d[1]);
    HexDigitBound(d[2], d[3]);
    HexDigitBound(d[4], d[5]);
    Bytes(PairValue(d[0], d[1]), PairValue(d[2], d[3]), PairValue(d[4], d[5]));
  }

  /** Dropping the '#' of "#RRGGBB" or "#RGB" and doubling a short form gives the six digits. */
  lemma ExpandedDigits(hex: string)
    requires WellFormedHex(hex) && |hex| != 9
    ensures ExpandHex(hex) == Digits6(hex)
  {
    assert ReplaceFirst(hex, '#', "") == hex[1..];
  }

  lemma HexDigitBound(a: char, b: char)
    requires IsHexDigit(a) && IsHexDigit(b)
    ensures PairValue(a, b) < 256
  {
  }

  /** A byte printed as two digits after '#' comes back as that byte. */
  lemma HexToRgbaRoundTrip(r: nat, g: nat, b: nat, alphaText: string)
    requires r < 256 && g < 256 && b < 256
    ensures HexToRgba("#" + HexByte(r) + HexByte(g) + HexByte(b), alphaText) == RgbaText(r, g, b, alphaText)
  {
    var hex := "#" + HexByte(r) + HexByte(g) + HexByte(b);
    PrintedHex(r, g, b, hex);
    HexToRgbaOfHex(hex, alphaText);
    var d := Digits6(hex);
    ByteDigits(r, d[0], d[1]);
    ByteDigits(g, d[2], d[3]);
    ByteDigits(b, d[4], d[5]);
  }

  /** "#" and three printed bytes form a well-formed colour whose digits are the bytes' digits. */
  lemma PrintedHex(r: nat, g: nat, b: nat, hex: string)
    requires r < 256 && g < 256 && b < 256
    requires hex == "#" + HexByte(r) + HexByte(g) + HexByte(b)
    ensures WellFormedHex(hex) && |hex| == 7
    ensures Digits6(hex) == [HexChar(r / 16), HexChar(r % 16), HexChar(g / 16), HexChar(g % 16), HexChar(b / 16), HexChar(b % 16)]
  {
    HexByteDigits(r);
    HexByteDigits(g);
    HexByteDigits(b);
    assert hex == ['#', HexChar(r / 16), HexChar(r % 16), HexChar(g / 16), HexChar(g % 16), HexChar(b / 16), HexChar(b % 16)];
    SevenCharHex(hex);
  }

  /** "#" and six hexadecimal digits is a well-formed colour standing for those six. */
  lemma SevenCharHex(hex: string)
    requires |hex| == 7 && hex[0] == '#' && forall i | 1 <= i < 7 :: IsHexDigit(hex[i])
    ensures WellFormedHex(hex) && Digits6(hex) == hex[1..]
  {
  }

  /** The two printed digits of a byte pair back up to the byte. */
  lemma ByteDigits(n: nat, hi: char, lo: char)
    requires n < 256 && hi == HexChar(n / 16) && lo == HexChar(n % 16)
    ensures PairValue(hi, lo) == n
  {
  }

  /**
   * "#-" and six digits: parseInt reads the negated value (NegatedDigits),
   * and the bitwise operators see its 24-bit two's complement (NegatedValue).
   */
  lemma NegatedDigits(d: string)
    requires |d| == 6 && forall i | 0 <= i < 6 :: IsHexDigit(d[i])
    ensures !StartsWith("#-" + d, "rgb") && ParseInt16(ExpandHex("#-" + d)) == Some(-(HexValue(d) as int))
  {
    var hex := "#-" + d;
    assert hex[0] == '#';
    assert ExpandHex(hex) == ['-'] + d by {
      assert ReplaceFirst(hex, '#', "") == ['-'] + d;
    }
    ParseInt16Signed('-', d);
  }

  /** A colour parseInt reads as -n: the three low bytes of 2^24 - n. */
  lemma NegatedValue(hex: string, alphaText: string, n: nat)
    requires !StartsWith(hex, "rgb") && ParseInt16(ExpandHex(hex)) == Some(-(n as int))
    ensures var w := 0x100_0000 - n;
            HexToRgba(hex, alphaText) == RgbaText(w / 65536 % 256, w / 256 % 256, w % 256, alphaText)
  {
    HexToRgbaOfValue(hex, alphaText, -(n as int));
    TwosComplementBytes(n);
  }

  /** A colour parseInt reads as v: the three low bytes of v. */
  lemma HexToRgbaOfValue(hex: string, alphaText: string, v: int)
    requires !StartsWith(hex, "rgb") && ParseInt16(ExpandHex(hex)) == Some(v)
    ensures HexToRgba(hex, alphaText) == RgbaText(v / 65536 % 256, v / 256 % 256, v % 256, alphaText)
  {
  }

  /** The three low bytes of -v and of 2^24 - v agree. */
  lemma TwosComplementBytes(v: int)
    ensures var w := 0x100_0000 - v;
            (-v) / 65536 % 256 == w / 65536 % 256 && (-v) / 256 % 256 == w / 256 % 256 && (-v) % 256 == w % 256
  {
    var w := 0x100_0000 - v;
    assert -v == w - 256 * 65536;
    assert (-v) / 65536 == w / 65536 - 256;
    assert (-v) / 256 == w / 256 - 65536;
  }

  /** White space after the '#' is skipped by parseInt, unless it changes which form the digits take. */
  lemma HexToRgbaPadded(w: string, rest: string, alphaText: string)
    requires AllSpace(w) && |rest| != 3 && |w + rest| != 3
    ensures HexToRgba("#" + w + rest, alphaText) == HexToRgba("#" + rest, alphaText)
  {
    var hex := "#" + w + rest;
    assert !StartsWith(hex, "rgb") && !StartsWith("#" + rest, "rgb") by {
      assert hex[0] == '#' && ("#" + rest)[0] == '#';
    }
    assert ExpandHex(hex) == w + rest by {
      assert hex == "#" + (w + rest);
      assert ReplaceFirst(hex, '#', "") == w + rest;
    }
    assert ExpandHex("#" + rest) == rest by {
      assert ReplaceFirst("#" + rest, '#', "") == rest;
    }
    ParseInt16Padded(w, rest);
  }

  /** A three-digit colour is its six-digit doubling. */
  lemma HexToRgbaShort(a: char, b: char, c: char, alphaText: string)
    requires IsHexDigit(a) && IsHexDigit(b) && IsHexDigit(c)
    ensures HexToRgba(['#', a, b, c], alphaText) == HexToRgba(['#', a, a, b, b, c, c], alphaText)
  {
    var short, long := ['#', a, b, c], ['#', a, a, b, b, c, c];
    assert Digits6(short) == Digits6(long) by {
      assert long[1..7] == [a, a, b, b, c, c];
    }
    SameDigitsSameRgba(short, long, alphaText);
  }

  /** Two colours standing for the same six digits convert alike. */
  lemma SameDigitsSameRgba(hex1: string, hex2: string, alphaText: string)
    requires WellFormedHex(hex1) && |hex1| != 9 && WellFormedHex(hex2) && |hex2| != 9
    requires Digits6(hex1) == Digits6(hex2)
    ensures HexToRgba(hex1, alphaText) == HexToRgba(hex2, alphaText)
  {
    HexToRgbaOfHex(hex1, alphaText);
    HexToRgbaOfHex(hex2, alphaText);
  }

  // ---------------------------------------------------------------------
  // Particles
  // ---------------------------------------------------------------------

  /** One of the three parallax layers: its depth, opacity and share of the pool. */
  datatype Layer = Layer(depth: real, opacity: real, count: nat)

  datatype Particle = Particle(layer: Layer, x: real, y: real, vx: real, vy: real, size: real,
                               rot: real, rotSpeed: real, color: string, ptype: string, mode: Mode)

  /** Math.PI. */
  const PI: real := 3.141592653589793

  /**
   * The Math.random() draws makeParticle reads, in order, and the cosine of
   * the drawn angle.
   */
  datatype Draws = Draws(typePick: real, sizePick: real, speedPick: real, cosAngle: real, xPick: real,
                         yPick: real, rotPick: real, spinPick: real, colorPick: real, modePick: real)

  predicate DrawsValid(d: Draws)
  {
    Unit(d.typePick) && Unit(d.sizePick) && Unit(d.speedPick) && -1.0 <= d.cosAngle <= 1.0
    && Unit(d.xPick) && Unit(d.yPick) && Unit(d.rotPick) && Unit(d.spinPick) && Unit(d.colorPick)
    && Unit(d.modePick)
  }

  /** list[Math.floor(Math.random() * list.length)]. */
  function PickFrom(list: seq<string>, r: real): (x: string)
    requires |list| > 0 && Unit(r)
    ensures x in list
  {
    list[PickIndex(r, |list|)]
  }

  /** Math.random() * n: a coordinate inside [0, n]. */
  function Spread(r: real, n: nat): (v: real)
    requires Unit(r)
    ensures 0.0 <= v <= n as real
  {
    UnitScale(r, n as real);
    r * n as real
  }

  lemma UnitScale(r: real, n: real)
    requires Unit(r) && n >= 0.0
    ensures 0.0 <= r * n <= n
  {
  }

  /** rand(size.min, size.max) * depth * sizeMultiplier: positive and inside the scaled range. */
  function ParticleSize(t: string, depth: real, sizeMultiplier: real, r: real): (size: real)
    requires depth > 0.0 && sizeMultiplier > 0.0 && Unit(r)
    ensures var range := SizeRange(t);
            range.min * depth * sizeMultiplier <= size < range.max * depth * sizeMultiplier
    ensures size > 0.0
  {
    var range := SizeRange(t);
    var base := Rand(range.min, range.max, r);
    ScaleBounds(range.min, base, range.max, depth * sizeMultiplier);
    base * (depth * sizeMultiplier)
  }

  lemma ScaleBounds(lo: real, v: real, hi: real, k: real)
    requires 0.0 < lo <= v < hi && k > 0.0
    ensures 0.0 < lo * k <= v * k < hi * k
  {
  }

  /** makeParticle(layer, types, colors, w, h), sizes scaled by the multiplier in force. */
  function MakeParticle(layer: Layer, types: seq<string>, colors: seq<string>, w: nat, h: nat,
                        sizeMultiplier: real, d: Draws): (p: Particle)
    requires |types| > 0 && |colors| > 0 && DrawsValid(d) && layer.depth > 0.0 && sizeMultiplier > 0.0
    ensures Spawned(p, types, colors, w, h) && p.layer == layer
    ensures p.mode == PickModeForType(p.ptype, d.modePick)
    ensures p.size == ParticleSize(p.ptype, layer.depth, sizeMultiplier, d.sizePick)
  {
    var t := PickFrom(types, d.typePick);
    var speed := SpeedRange(t);
    Particle(layer, Spread(d.xPick, w), Spread(d.yPick, h), d.cosAngle * 0.1,
             Rand(speed.min, speed.max, d.speedPick) * layer.depth,
             ParticleSize(t, layer.depth, sizeMultiplier, d.sizePick),
             d.rotPick * PI * 2.0, Rand(-0.02, 0.02, d.spinPick) * layer.depth,
             PickFrom(colors, d.colorPick), t, PickModeForType(t, d.modePick))
  }

  /** A particle as every pool particle is: alive size, a type and colour of the term, inside the window. */
  predicate Spawned(p: Particle, types: seq<string>, colors: seq<string>, w: nat, h: nat)
  {
    p.size > 0.0 && p.ptype in types && p.color in colors
    && 0.0 <= p.x <= w as real && 0.0 <= p.y <= h as real
  }

  /** The base count: the term's count on a desktop; on a mobile window (at most 768 wide) 1.2 times it, at most 90. */
  function BaseCount(count: nat, isMobile: bool): (b: nat)
    ensures !isMobile ==> b == count
    ensures isMobile ==> b <= 90 && b <= (count as real * 1.2).Floor
  {
    if isMobile then (if (count as real * 1.2).Floor <= 90 then (count as real * 1.2).Floor else 90) else count
  }

  /** The three layers of a pool of base count b. */
  function Layers(b: nat): (layers: seq<Layer>)
    ensures |layers| == 3 && forall i | 0 <= i < 3 :: layers[i].depth > 0.0
  {
    [Layer(0.5, 0.5, (b as real * 0.4).Floor), Layer(1.0, 0.8, (b as real * 0.45).Floor),
     Layer(1.6, 1.0, (b as real * 0.3).Floor)]
  }

  /** floor(0.4b) + floor(0.45b) + floor(0.3b). */
  function PoolSize(b: nat): nat
  {
    (b as real * 0.4).Floor + (b as real * 0.45).Floor + (b as real * 0.3).Floor
  }

  /** The layers' counts in total. */
  function Total(layers: seq<Layer>): nat
  {
    if layers == [] then 0 else Total(layers[..|layers| - 1]) + layers[|layers| - 1].count
  }

  lemma LayersTotal(b: nat)
    ensures Total(Layers(b)) == PoolSize(b)
  {
    var ls := Layers(b);
    assert ls[..2][..1] == ls[..1] && ls[..1][..0] == [] && ls[..3] == ls && ls[..3][..2] == ls[..2];
    assert Total(ls[..1]) == ls[0].count;
    assert Total(ls[..2]) == ls[0].count + ls[1].count;
  }

  /** A pool holds between 1.15 b - 3 and 1.15 b particles; on a mobile window at most 103. */
  lemma PoolSizeBounds(count: nat, isMobile: bool)
    ensures var b := BaseCount(count, isMobile);
            b as real * 1.15 - 3.0 < PoolSize(b) as real <= b as real * 1.15
    ensures isMobile ==> PoolSize(BaseCount(count, isMobile)) <= 103
  {
    var b := BaseCount(count, isMobile);
    if isMobile {
      assert PoolSize(b) <= PoolSize(90) by {
        FloorMonotone(b as real * 0.4, 36.0);
        FloorMonotone(b as real * 0.45, 40.5);
        FloorMonotone(b as real * 0.3, 27.0);
      }
    }
  }

  lemma FloorMonotone(x: real, y: real)
    requires x <= y
    ensures x.Floor <= y.Floor
  {
  }

  /** The run of n particles of one layer, made from the draws start, start + 1, …. */
  function Run(layer: Layer, types: seq<string>, colors: seq<string>, w: nat, h: nat, sizeMultiplier: real,
               draw: nat -> Draws, start: nat, n: nat): (ps: seq<Particle>)
    requires |types| > 0 && |colors| > 0 && layer.depth > 0.0 && sizeMultiplier > 0.0
    requires forall k :: DrawsValid(draw(k))
    ensures |ps| == n
    ensures forall i | 0 <= i < n :: Spawned(ps[i], types, colors, w, h)
  {
    var ps := seq(n, i requires 0 <= i => MakeParticle(layer, types, colors, w, h, sizeMultiplier, draw(start + i)));
    assert forall i | 0 <= i < n :: DrawsValid(draw(start + i)) && ps[i] == MakeParticle(layer, types, colors, w, h, sizeMultiplier, draw(start + i));
    ps
  }

  /** The pool the nested loops build: each layer's run after the runs of the layers before it. */
  function Pool(layers: seq<Layer>, types: seq<string>, colors: seq<string>, w: nat, h: nat, sizeMultiplier: real,
                draw: nat -> Draws): (ps: seq<Particle>)
    requires |types| > 0 && |colors| > 0 && sizeMultiplier > 0.0
    requires forall i | 0 <= i < |layers| :: layers[i].depth > 0.0
    requires forall k :: DrawsValid(draw(k))
    ensures |ps| == Total(layers)
  {
    if layers == [] then []
    else
      var before := layers[..|layers| - 1];
      Pool(before, types, colors, w, h, sizeMultiplier, draw)
        + Run(layers[|layers| - 1], types, colors, w, h, sizeMultiplier, draw, Total(before), layers[|layers| - 1].count)
  }

  /** Every particle of a pool is spawned inside the window with a type and a colour of the term. */
  lemma {:induction false} PoolSpawned(layers: seq<Layer>, types: seq<string>, colors: seq<string>, w: nat, h: nat,
                                       sizeMultiplier: real, draw: nat -> Draws)
    requires |types| > 0 && |colors| > 0 && sizeMultiplier > 0.0
    requires forall i | 0 <= i < |layers| :: layers[i].depth > 0.0
    requires forall k :: DrawsValid(draw(k))
    ensures forall i | 0 <= i < Total(layers) :: Spawned(Pool(layers, types, colors, w, h, sizeMultiplier, draw)[i], types, colors, w, h)
  {
    if layers != [] {
      var before := layers[..|layers| - 1];
      PoolSpawned(before, types, colors, w, h, sizeMultiplier, draw);
      var head := Pool(before, types, colors, w, h, sizeMultiplier, draw);
      var last := layers[|layers| - 1];
      var tail := Run(last, types, colors, w, h, sizeMultiplier, draw, Total(before), last.count);
      var pool := head + tail;
      assert Pool(layers, types, colors, w, h, sizeMultiplier, draw) == pool;
      forall i | 0 <= i < |pool|
        ensures Spawned(pool[i], types, colors, w, h)
      {
        if i < |head| {
          assert pool[i] == head[i];
        } else {
          assert pool[i] == tail[i - |head|];
        }
      }
    }
  }

  /** One more particle at the end of a run. */
  lemma RunSnoc(layer: Layer, types: seq<string>, colors: seq<string>, w: nat, h: nat, sizeMultiplier: real,
                draw: nat -> Draws, start: nat, n: nat)
    requires |types| > 0 && |colors| > 0 && layer.depth > 0.0 && sizeMultiplier > 0.0
    requires forall k :: DrawsValid(draw(k))
    ensures Run(layer, types, colors, w, h, sizeMultiplier, draw, start, n + 1)
            == Run(layer, types, colors, w, h, sizeMultiplier, draw, start, n)
               + [MakeParticle(layer, types, colors, w, h, sizeMultiplier, draw(start + n))]
  {
    var longer := Run(layer, types, colors, w, h, sizeMultiplier, draw, start, n + 1);
    assert longer[..n] == Run(layer, types, colors, w, h, sizeMultiplier, draw, start, n);
  }

  /** A pool over one more layer is the pool with that layer's run after it. */
  lemma PoolSnoc(layers: seq<Layer>, li: nat, types: seq<string>, colors: seq<string>, w: nat, h: nat,
                 sizeMultiplier: real, draw: nat -> Draws)
    requires li < |layers|
    requires |types| > 0 && |colors| > 0 && sizeMultiplier > 0.0
    requires forall i | 0 <= i < |layers| :: layers[i].depth > 0.0
    requires forall k :: DrawsValid(draw(k))
    ensures Pool(layers[..li + 1], types, colors, w, h, sizeMultiplier, draw)
            == Pool(layers[..li], types, colors, w, h, sizeMultiplier, draw)
               + Run(layers[li], types, colors, w, h, sizeMultiplier, draw, Total(layers[..li]), layers[li].count)
  {
    assert layers[..li + 1][..li] == layers[..li];
  }

  /** The inner loop: layer.count particles pushed after the pool so far, from the draws that follow it. */
  method PushRun(pool: seq<Particle>, layer: Layer, types: seq<string>, colors: seq<string>, w: nat, h: nat,
                 sizeMultiplier: real, draw: nat -> Draws) returns (pushed: seq<Particle>)
    requires |types| > 0 && |colors| > 0 && layer.depth > 0.0 && sizeMultiplier > 0.0
    requires forall k :: DrawsValid(draw(k))
    ensures pushed == pool + Run(layer, types, colors, w, h, sizeMultiplier, draw, |pool|, layer.count)
  {
    pushed := pool;
    for i := 0 to layer.count
      invariant pushed == pool + Run(layer, types, colors, w, h, sizeMultiplier, draw, |pool|, i)
    {
      RunSnoc(layer, types, colors, w, h, sizeMultiplier, draw, |pool|, i);
      pushed := pushed + [MakeParticle(layer, types, colors, w, h, sizeMultiplier, draw(|pool| + i))];
    }
  }

  /**
   * The two nested push loops: for each layer, layer.count particles, the
   * k-th particle pushed made from draw(k).
   */
  method BuildPool(layers: seq<Layer>, types: seq<string>, colors: seq<string>, w: nat, h: nat,
                   sizeMultiplier: real, draw: nat -> Draws) returns (pool: seq<Particle>)
    requires |types| > 0 && |colors| > 0 && sizeMultiplier > 0.0
    requires forall i | 0 <= i < |layers| :: layers[i].depth > 0.0
    requires forall k :: DrawsValid(draw(k))
    ensures pool == Pool(layers, types, colors, w, h, sizeMultiplier, draw)
  {
    pool := [];
    for li := 0 to |layers|
      invariant pool == Pool(layers[..li], types, colors, w, h, sizeMultiplier, draw)
    {
      PoolSnoc(layers, li, types, colors, w, h, sizeMultiplier, draw);
      pool := PushRun(pool, layers[li], types, colors, w, h, sizeMultiplier, draw);
    }
    assert layers[..|layers|] == layers;
  }

  // ---------------------------------------------------------------------
  // The frame step
  // ---------------------------------------------------------------------

  /** Math.sin / Math.cos as the frame reads them: any values in [-1, 1]. */
  ghost predicate Trig(sin: real -> real, cos: real -> real)
  {
    forall a :: -1.0 <= sin(a) <= 1.0 && -1.0 <= cos(a) <= 1.0
  }

  /**
   * The movement of one particle in one frame, by its mode; tSec is the
   * frame time in seconds, dt the clamped frame time in milliseconds.
   */
  function Move(p: Particle, tSec: real, dt: real, wind: real, sin: real -> real, cos: real -> real): (r: Particle)
    ensures r.layer == p.layer && r.size == p.size && r.rotSpeed == p.rotSpeed
    ensures r.color == p.color && r.ptype == p.ptype && r.mode == p.mode
    ensures p.mode == Rise || p.mode == Fall ==> r.vy == p.vy
  {
    match p.mode
    case Swirl =>
      var vx := cos(tSec + p.y * 0.005) * 0.3 + wind * 0.002;
      var vy := sin(tSec * 0.7) * 0.2 + Abs(p.vy) * 0.6;
      p.(vx := vx, vy := vy, x := p.x + vx * p.layer.depth, y := p.y + (vy + 0.2) * (dt / 16.0) * 0.8,
         rot := p.rot + p.rotSpeed * (dt / 16.0) + 0.01)
    case Wander =>
      var turn := sin(tSec * 0.8 + p.x * 0.01) * 0.02;
      var vx := p.vx + (wind * 0.001 + turn);
      var vy := p.vy + cos(tSec * 1.1 + p.y * 0.01) * 0.01;
      p.(vx := vx, vy := vy, x := p.x + vx * 0.8, y := p.y + vy * 0.8, rot := p.rot + p.rotSpeed * 0.5)
    case Rise =>
      var vx := p.vx + (wind * 0.001 + sin(tSec + p.x * 0.01) * 0.002);
      p.(vx := vx, x := p.x + vx * p.layer.depth, y := p.y - Abs(p.vy) * 0.5, rot := p.rot + p.rotSpeed * 0.3)
    case Fall =>
      var sway := sin(tSec + p.y * 0.01 + p.x * 0.005) * 0.4;
      var vx := p.vx + (wind * 0.002 + sway * 0.002);
      p.(vx := vx, x := p.x + vx * p.layer.depth, y := p.y + p.vy * (dt / 16.0) * 0.6,
         rot := p.rot + p.rotSpeed * (dt / 16.0))
  }

  /** A rising particle never moves down the screen. */
  lemma RiseNeverDescends(p: Particle, tSec: real, dt: real, wind: real, sin: real -> real, cos: real -> real)
    requires p.mode == Rise
    ensures Move(p, tSec, dt, wind, sin, cos).y <= p.y
  {
  }

  /**
   * A swirling particle never moves up the screen while time runs forward:
   * its new vertical speed is at least -0.2, and the step adds 0.2 to it.
   */
  lemma SwirlNeverRises(p: Particle, tSec: real, dt: real, wind: real, sin: real -> real, cos: real -> real)
    requires p.mode == Swirl && dt >= 0.0 && Trig(sin, cos)
    ensures Move(p, tSec, dt, wind, sin, cos).y >= p.y
    ensures -0.2 <= Move(p, tSec, dt, wind, sin, cos).vy
    ensures var vx := Move(p, tSec, dt, wind, sin, cos).vx; -0.3 + wind * 0.002 <= vx <= 0.3 + wind * 0.002
  {
    var vy := sin(tSec * 0.7) * 0.2 + Abs(p.vy) * 0.6;
    assert -1.0 <= sin(tSec * 0.7) <= 1.0 && -1.0 <= cos(tSec + p.y * 0.005) <= 1.0;
    assert vy + 0.2 >= 0.0;
    NonNegProduct(vy + 0.2, dt / 16.0);
  }

  lemma NonNegProduct(a: real, b: real)
    requires a >= 0.0 && b >= 0.0
    ensures a * b >= 0.0 && a * b * 0.8 >= 0.0 && a * b * 0.6 >= 0.0
  {
  }

  /** A falling particle with a downward speed never moves up while time runs forward. */
  lemma FallNeverRises(p: Particle, tSec: real, dt: real, wind: real, sin: real -> real, cos: real -> real)
    requires p.mode == Fall && p.vy >= 0.0 && dt >= 0.0
    ensures Move(p, tSec, dt, wind, sin, cos).y >= p.y
  {
    NonNegProduct(p.vy, dt / 16.0);
  }

  /** The Math.random() draws the wrap step may read for a particle. */
  datatype WrapDraws = WrapDraws(x: real, vx: real, riseX: real)

  predicate WrapDrawsValid(d: WrapDraws)
  {
    Unit(d.x) && Unit(d.vx) && Unit(d.riseX)
  }

  /**
   * Where the wrap step leaves every particle: no further out than its own
   * size on either side, not below the bottom edge, and a rising particle not
   * above the top edge.
   */
  predicate InView(p: Particle, w: nat, h: nat)
  {
    -p.size <= p.x <= w as real + p.size && p.y - p.size <= h as real
    && (p.mode == Rise ==> p.y + p.size >= 0.0)
  }

  /**
   * The four edge tests of the frame step, in their order: respawn at the top
   * after leaving through the bottom, respawn a rising particle at the bottom
   * after leaving through the top, and wrap left and right.
   */
  function Wrap(p: Particle, w: nat, h: nat, d: WrapDraws): (r: Particle)
    ensures r.layer == p.layer && r.size == p.size && r.rot == p.rot && r.rotSpeed == p.rotSpeed && r.vy == p.vy
    ensures r.color == p.color && r.ptype == p.ptype && r.mode == p.mode
    ensures p.size >= 0.0 ==> InView(r, w, h)
    ensures InView(p, w, h) ==> r == p
  {
    var p1 := if p.y - p.size > h as real then p.(y := -p.size, x := d.x * w as real, vx := (d.vx - 0.5) * 0.2) else p;
    var p2 := if p1.y + p1.size < 0.0 && p1.mode == Rise then p1.(y := h as real + p1.size, x := d.riseX * w as real) else p1;
    var p3 := if p2.x < -p2.size then p2.(x := w as real + p2.size) else p2;
    if p3.x > w as real + p3.size then p3.(x := -p3.size) else p3
  }

  /** Wrapping twice with the same draws is wrapping once. */
  lemma WrapIdempotent(p: Particle, w: nat, h: nat, d: WrapDraws)
    requires p.size >= 0.0
    ensures Wrap(Wrap(p, w, h, d), w, h, d) == Wrap(p, w, h, d)
  {
  }

  /**
   * A particle that left through the bottom comes back just above the top,
   * at a random x inside the window, with a small random sideways speed.
   */
  lemma WrapBottom(p: Particle, w: nat, h: nat, d: WrapDraws)
    requires p.size >= 0.0 && p.y - p.size > h as real && WrapDrawsValid(d)
    ensures var r := Wrap(p, w, h, d);
            r.y == -p.size && r.x == d.x * w as real && 0.0 <= r.x <= w as real && -0.1 <= r.vx < 0.1
  {
    var x := d.x * w as real;
    UnitScale(d.x, w as real);
    assert -p.size <= x <= w as real + p.size;
    var p1 := p.(y := -p.size, x := x, vx := (d.vx - 0.5) * 0.2);
    assert p1.y - p1.size <= h as real && p1.y + p1.size == 0.0;
    assert !(p1.y + p1.size < 0.0) && !(p1.x < -p1.size) && !(p1.x > w as real + p1.size);
    assert Wrap(p, w, h, d) == p1;
  }

  /** A rising particle that left through the top comes back just below the bottom. */
  lemma WrapTop(p: Particle, w: nat, h: nat, d: WrapDraws)
    requires p.size >= 0.0 && p.mode == Rise && p.y + p.size < 0.0 && p.y - p.size <= h as real
    requires WrapDrawsValid(d)
    ensures var r := Wrap(p, w, h, d);
            r.y == h as real + p.size && r.x == d.riseX * w as real && 0.0 <= r.x <= w as real && r.vx == p.vx
  {
    var x := d.riseX * w as real;
    UnitScale(d.riseX, w as real);
    assert -p.size <= x <= w as real + p.size;
    var p2 := p.(y := h as real + p.size, x := x);
    assert p2.y - p2.size == h as real && p2.y + p2.size >= 0.0;
    assert InView(p2, w, h);
  }

  /** One particle's whole frame: move it, then wrap it. */
  function Step(p: Particle, tSec: real, dt: real, wind: real, w: nat, h: nat,
                sin: real -> real, cos: real -> real, d: WrapDraws): (r: Particle)
    ensures r.layer == p.layer && r.size == p.size && r.color == p.color && r.ptype == p.ptype && r.mode == p.mode
    ensures p.size >= 0.0 ==> InView(r, w, h)
  {
    Wrap(Move(p, tSec, dt, wind, sin, cos), w, h, d)
  }

  /** Every particle of the pool stepped, the i-th wrapping with the draws wraps(i). */
  function StepAll(ps: seq<Particle>, tSec: real, dt: real, wind: real, w: nat, h: nat,
                   sin: real -> real, cos: real -> real, wraps: nat -> WrapDraws): (r: seq<Particle>)
    ensures |r| == |ps|
    ensures forall i | 0 <= i < |ps| :: r[i].size == ps[i].size && r[i].layer == ps[i].layer
                                        && r[i].ptype == ps[i].ptype && r[i].color == ps[i].color
    ensures forall i | 0 <= i < |ps| :: ps[i].size >= 0.0 ==> InView(r[i], w, h)
  {
    var r := seq(|ps|, i requires 0 <= i < |ps| => Step(ps[i], tSec, dt, wind, w, h, sin, cos, wraps(i)));
    assert forall i | 0 <= i < |ps| :: r[i] == Step(ps[i], tSec, dt, wind, w, h, sin, cos, wraps(i));
    r
  }

  /**
   * The frame time: the time since the last frame, capped at 50 ms; the
   * first frame (lastTime 0) has none.
   */
  function DeltaTime(lastTime: real, timestamp: real): (dt: real)
    ensures dt <= 50.0
    ensures lastTime == 0.0 ==> dt == 0.0
    ensures lastTime != 0.0 ==> dt == timestamp - lastTime || (dt == 50.0 && timestamp - lastTime > 50.0)
  {
    var last := if lastTime == 0.0 then timestamp else lastTime;
    Min(timestamp - last, 50.0)
  }

  /** The fade-in: the pool's alpha grows by dt / 800 up to 1 and then stays. */
  function Fade(alpha: real, dt: real): (a: real)
    ensures alpha <= 1.0 ==> a <= 1.0
    ensures alpha >= 1.0 ==> a == alpha
    ensures dt >= 0.0 ==> a >= alpha
    ensures alpha < 1.0 && alpha + dt / 800.0 <= 1.0 ==> a == alpha + dt / 800.0
  {
    if alpha < 1.0 then Min(1.0, alpha + dt / 800.0) else alpha
  }

  /** The alpha after n frames of dt each, starting from a rebuild. */
  function FadeFrames(n: nat, dt: real): real
  {
    if n == 0 then 0.0 else Fade(FadeFrames(n - 1, dt), dt)
  }

  /** Frames of a steady length fade the pool in linearly: n frames give min(1, n * dt / 800). */
  lemma {:induction false} FadeLinear(n: nat, dt: real)
    requires dt >= 0.0
    ensures FadeFrames(n, dt) == Min(1.0, n as real * dt / 800.0)
  {
    if n > 0 {
      FadeLinear(n - 1, dt);
      var prev := FadeFrames(n - 1, dt);
      assert (n - 1) as real * dt / 800.0 + dt / 800.0 == n as real * dt / 800.0;
      if (n - 1) as real * dt / 800.0 >= 1.0 {
        assert n as real * dt / 800.0 >= 1.0 by {
          assert n as real * dt >= (n - 1) as real * dt by {
            assert n as real * dt - (n - 1) as real * dt == dt;
          }
        }
      }
    }
  }

  /** At 60 frames per second and beyond (dt at least 16 ms) the fade-in is over after 50 frames. */
  lemma FadeComplete(n: nat, dt: real)
    requires dt >= 16.0 && n >= 50
    ensures FadeFrames(n, dt) == 1.0
  {
    FadeLinear(n, dt);
    assert n as real * dt >= 800.0 by {
      assert n as real >= 50.0;
      assert n as real * dt >= 50.0 * dt;
    }
  }

  /** Everything a browser frame tells the step: visibility, the canvas, the time, the window and the term. */
  datatype Frame = Frame(hidden: bool, hasCanvas: bool, hasContext: bool, timestamp: real, w: nat, h: nat,
                         sekkiName: string)

  /** The state behind the component's refs. */
  class Background {
    var particles: seq<Particle>
    var lastTime: real
    var wind: real
    var transitionAlpha: real
    var prevSekkiName: string
    var sizeMultiplier: real
    /** How many animation frames have been requested. */
    var frameRequests: nat

    /** The alpha never passes 1, the multiplier is one of the two, and every particle has a size. */
    predicate Valid()
      reads this
    {
      transitionAlpha <= 1.0 && (sizeMultiplier == 1.0 || sizeMultiplier == 1.25)
      && forall i | 0 <= i < |particles| :: particles[i].size > 0.0
    }

    /** The refs' initial values. */
    constructor()
      ensures Valid()
      ensures particles == [] && lastTime == 0.0 && wind == 0.0 && transitionAlpha == 0.0
      ensures prevSekkiName == "" && sizeMultiplier == 1.0 && frameRequests == 0
    {
      particles := [];
      lastTime := 0.0;
      wind := 0.0;
      transitionAlpha := 0.0;
      prevSekkiName := "";
      sizeMultiplier := 1.0;
      frameRequests := 0;
    }

    /** The mount effect: the clock restarts and the first frame is requested. */
    method Mount()
      modifies this
      ensures lastTime == 0.0 && frameRequests == old(frameRequests) + 1
      ensures particles == old(particles) && wind == old(wind) && transitionAlpha == old(transitionAlpha)
      ensures prevSekkiName == old(prevSekkiName) && sizeMultiplier == old(sizeMultiplier)
    {
      lastTime := 0.0;
      frameRequests := frameRequests + 1;
    }

    /** The visibilitychange listener: the clock restarts when the page becomes visible again. */
    method OnVisibilityChange(hidden: bool)
      modifies this
      ensures lastTime == if hidden then old(lastTime) else 0.0
      ensures particles == old(particles) && wind == old(wind) && transitionAlpha == old(transitionAlpha)
      ensures prevSekkiName == old(prevSekkiName) && sizeMultiplier == old(sizeMultiplier)
      ensures frameRequests == old(frameRequests)
    {
      if !hidden {
        lastTime := 0.0;
      }
    }

    /** The update loop over the pool: each particle stepped in place. */
    method StepParticles(tSec: real, dt: real, w: nat, h: nat, sin: real -> real, cos: real -> real,
                         wraps: nat -> WrapDraws)
      modifies this
      ensures particles == StepAll(old(particles), tSec, dt, wind, w, h, sin, cos, wraps)
      ensures lastTime == old(lastTime) && wind == old(wind) && transitionAlpha == old(transitionAlpha)
      ensures prevSekkiName == old(prevSekkiName) && sizeMultiplier == old(sizeMultiplier)
      ensures frameRequests == old(frameRequests)
    {
      var ps := particles;
      for i := 0 to |ps|
        invariant |ps| == |particles|
        invariant forall j | 0 <= j < i :: ps[j] == Step(particles[j], tSec, dt, wind, w, h, sin, cos, wraps(j))
        invariant ps[i..] == particles[i..]
      {
        assert ps[i] == particles[i];
        ps := ps[i := Step(ps[i], tSec, dt, wind, w, h, sin, cos, wraps(i))];
      }
      particles := ps;
    }

    /**
     * A new term name: it is remembered and the fade restarts; when the term
     * has an animation, the pool is rebuilt for the window and the wind is reset.
     */
    method Rebuild(sekkiName: string, w: nat, h: nat, draw: nat -> Draws)
      requires Valid()
      requires forall k :: DrawsValid(draw(k))
      modifies this
      ensures Valid()
      ensures prevSekkiName == sekkiName && transitionAlpha == 0.0
      ensures lastTime == old(lastTime) && frameRequests == old(frameRequests)
      ensures sekkiName !in SEKKI_ANIMATIONS ==>
                particles == old(particles) && wind == old(wind) && sizeMultiplier == old(sizeMultiplier)
      ensures sekkiName in SEKKI_ANIMATIONS ==>
                var config := SEKKI_ANIMATIONS[sekkiName];
                var isMobile := w <= 768;
                var b := BaseCount(config.count, isMobile);
                wind == 0.0 && sizeMultiplier == (if isMobile then 1.25 else 1.0)
                && particles == Pool(Layers(b), config.types, config.colors, w, h, sizeMultiplier, draw)
                && |particles| == PoolSize(b)
                && forall i | 0 <= i < |particles| :: Spawned(particles[i], config.types, config.colors, w, h)
    {
      prevSekkiName := sekkiName;
      transitionAlpha := 0.0;
      if sekkiName in SEKKI_ANIMATIONS {
        var config := SEKKI_ANIMATIONS[sekkiName];
        ConfigsUsable(sekkiName);
        var isMobile := w <= 768;
        var b := BaseCount(config.count, isMobile);
        sizeMultiplier := if isMobile then 1.25 else 1.0;
        var layers := Layers(b);
        particles := BuildPool(layers, config.types, config.colors, w, h, sizeMultiplier, draw);
        PoolSpawned(layers, config.types, config.colors, w, h, sizeMultiplier, draw);
        LayersTotal(b);
        wind := 0.0;
      }
    }

    /**
     * One animation frame. A hidden page or a missing canvas or context only
     * requests the next frame. Otherwise the clock advances; a new term name
     * restarts the fade and, when the term has an animation, rebuilds the pool
     * for the window size and resets the wind; then the fade advances and
     * every particle is moved and wrapped.
     */
    method Animate(f: Frame, draw: nat -> Draws, sin: real -> real, cos: real -> real, wraps: nat -> WrapDraws)
      requires Valid()
      requires forall k :: DrawsValid(draw(k))
      modifies this
      ensures Valid()
      ensures frameRequests == old(frameRequests) + 1
      ensures f.hidden || !f.hasCanvas || !f.hasContext ==>
                particles == old(particles) && lastTime == old(lastTime) && wind == old(wind)
                && transitionAlpha == old(transitionAlpha) && prevSekkiName == old(prevSekkiName)
                && sizeMultiplier == old(sizeMultiplier)
      ensures !f.hidden && f.hasCanvas && f.hasContext ==>
                var dt := DeltaTime(old(lastTime), f.timestamp);
                var changed := f.sekkiName != old(prevSekkiName);
                var rebuilt := changed && f.sekkiName in SEKKI_ANIMATIONS;
                var isMobile := f.w <= 768;
                lastTime == f.timestamp && prevSekkiName == f.sekkiName
                && transitionAlpha == Fade(if changed then 0.0 else old(transitionAlpha), dt)
                && wind == (if rebuilt then 0.0 else old(wind))
                && sizeMultiplier == (if rebuilt then (if isMobile then 1.25 else 1.0) else old(sizeMultiplier))
                && (rebuilt ==>
                      var config := SEKKI_ANIMATIONS[f.sekkiName];
                      var pool := Pool(Layers(BaseCount(config.count, isMobile)), config.types, config.colors,
                                       f.w, f.h, sizeMultiplier, draw);
                      particles == StepAll(pool, f.timestamp / 1000.0, dt, 0.0, f.w, f.h, sin, cos, wraps)
                      && |particles| == PoolSize(BaseCount(config.count, isMobile)))
                && (!rebuilt ==>
                      particles == StepAll(old(particles), f.timestamp / 1000.0, dt, old(wind), f.w, f.h, sin, cos, wraps))
      ensures !f.hidden && f.hasCanvas && f.hasContext ==> forall i | 0 <= i < |particles| :: InView(particles[i], f.w, f.h)
    {
      if f.hidden || !f.hasCanvas || !f.hasContext {
        frameRequests := frameRequests + 1;
        return;
      }
      var dt := DeltaTime(lastTime, f.timestamp);
      lastTime := f.timestamp;
      if f.sekkiName != prevSekkiName {
        Rebuild(f.sekkiName, f.w, f.h, draw);
      }
      transitionAlpha := Fade(transitionAlpha, dt);
      StepParticles(f.timestamp / 1000.0, dt, f.w, f.h, sin, cos, wraps);
      frameRequests := frameRequests + 1;
    }
  }

  /** Every term the table lists has an animation the pool can be built from. */
  lemma ConfigsUsable(name: string)
    requires name in SEKKI_ANIMATIONS
    ensures ConfigUsable(SEKKI_ANIMATIONS[name])
  {
  }
}

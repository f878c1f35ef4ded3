/**
 * The decisions the atmosphere effects make before they paint: when a light
 * flare shows and how bright, how strongly the breathing overlay glows, how
 * the persistent fog-blob pool is kept at its configured size, how far frost
 * has grown, which branches the fractal frost draws, and how a colour gets
 * its alpha channel. Canvas painting itself is not modelled; the trigonometric
 * functions and Math.random arrive as parameters.
 */
module EnvironmentEngine {
  import opened Js

  // ---------------------------------------------------------------------
  // Light flare
  // ---------------------------------------------------------------------

  datatype FlareConfig = FlareConfig(color: string, opacity: real, interval: real, speed: real)

  /** Where the flare is drawn and how opaque its centre is. */
  datatype Flare = Flare(cx: real, cy: real, alpha: real)

  /** (time % interval) / interval, with the interval given in seconds. */
  function FlareProgress(time: real, intervalSec: real): (p: real)
    requires intervalSec != 0.0
    ensures time >= 0.0 && intervalSec > 0.0 ==> 0.0 <= p < 1.0
  {
    var interval := intervalSec * 1000.0;
    RemBounds(time, interval);
    if time >= 0.0 && intervalSec > 0.0 then
      DivBounds(Rem(time, interval), interval);
      Rem(time, interval) / interval
    else Rem(time, interval) / interval
  }

  /** The share of the opacity while fading in, over the first 20% of the active phase. */
  function FadeIn(ap: real): (t: real)
    ensures 0.0 <= ap <= 0.2 ==> 0.0 <= t <= 1.0
    ensures ap == 0.0 ==> t == 0.0
  {
    ap / 0.2
  }

  /** The share of the opacity while fading out, over the last 20% of the active phase. */
  function FadeOut(ap: real): (t: real)
    ensures 0.8 <= ap <= 1.0 ==> 0.0 <= t <= 1.0
    ensures ap == 1.0 ==> t == 0.0
  {
    (1.0 - ap) / 0.2
  }

  /** opacity * t, within [0, opacity] for a share t in [0, 1]. */
  function Part(opacity: real, t: real): (a: real)
    ensures opacity >= 0.0 && 0.0 <= t <= 1.0 ==> 0.0 <= a <= opacity
    ensures t == 0.0 ==> a == 0.0
  {
    ShareOf(opacity, 0.0, t);
    opacity * t
  }

  /** A larger share is a larger part. */
  lemma PartMonotone(opacity: real, s: real, t: real)
    requires opacity >= 0.0 && s <= t
    ensures Part(opacity, s) <= Part(opacity, t)
  {
    if opacity > 0.0 {
      ScaleLe(opacity, s, t);
    }
  }

  /** The flare's alpha at active progress ap: a linear fade in, a plateau, a linear fade out. */
  function FlareAlpha(opacity: real, ap: real): (a: real)
    ensures opacity >= 0.0 && 0.0 <= ap <= 1.0 ==> 0.0 <= a <= opacity
    ensures 0.2 <= ap <= 0.8 ==> a == opacity
    ensures ap == 0.0 || ap == 1.0 ==> a == 0.0
  {
    if ap < 0.2 then Part(opacity, FadeIn(ap))
    else if ap > 0.8 then Part(opacity, FadeOut(ap))
    else opacity
  }

  /** The fade out mirrors the fade in: the alpha at ap equals the alpha at 1 - ap. */
  lemma FlareSymmetric(opacity: real, ap: real)
    requires 0.0 <= ap <= 1.0
    ensures FlareAlpha(opacity, ap) == FlareAlpha(opacity, 1.0 - ap)
  {
    assert FadeIn(ap) == FadeOut(1.0 - ap);
    assert FadeOut(ap) == FadeIn(1.0 - ap);
  }

  /** The alpha never falls while fading in. */
  lemma FlareFadesIn(opacity: real, a: real, b: real)
    requires opacity >= 0.0 && 0.0 <= a <= b <= 0.2
    ensures FlareAlpha(opacity, a) <= FlareAlpha(opacity, b)
  {
    if a < 0.2 {
      assert FadeIn(a) == a * 5.0 && FadeIn(b) == b * 5.0;
      PartMonotone(opacity, FadeIn(a), FadeIn(b));
      assert FadeIn(b) <= 1.0;
      PartMonotone(opacity, FadeIn(b), 1.0);
    }
  }

  /** progress / 0.6: how far through the active 60% of the interval the flare is. */
  function ActiveProgress(progress: real): (ap: real)
    ensures 0.0 <= progress <= 0.6 ==> 0.0 <= ap <= 1.0
  {
    if 0.0 <= progress <= 0.6 then
      DivBounds(progress, 0.6);
      progress / 0.6
    else progress / 0.6
  }

  /**
   * drawFlare(ctx, w, h, time, config): nothing during the last 40% of each
   * interval; otherwise a flare on the diagonal from (-0.3 w, -0.1 h) to
   * (1.3 w, 0.5 h), at the point the active progress has reached.
   */
  function DrawFlare(w: real, h: real, time: real, config: FlareConfig): (f: Option<Flare>)
    requires config.interval != 0.0
    ensures f.None? <==> FlareProgress(time, config.interval) > 0.6
    ensures f.Some? && time >= 0.0 && config.interval > 0.0 && config.opacity >= 0.0 ==>
              0.0 <= f.value.alpha <= config.opacity
    ensures f.Some? && time >= 0.0 && config.interval > 0.0 && w >= 0.0 ==>
              -w * 0.3 <= f.value.cx <= w * 1.3
    ensures f.Some? && time >= 0.0 && config.interval > 0.0 && h >= 0.0 ==>
              -h * 0.1 <= f.value.cy <= h * 0.5
  {
    var progress := FlareProgress(time, config.interval);
    if progress > 0.6 then None
    else
      var ap := ActiveProgress(progress);
      Some(Flare(Along(-w * 0.3, w * 1.3, ap), Along(-h * 0.1, h * 0.5, ap), FlareAlpha(config.opacity, ap)))
  }

  /**
   * A drawn flare lies on its diagonal at one active progress t, and its
   * alpha is the flare alpha at that same t: the centre and the brightness
   * move together.
   */
  lemma FlareOnDiagonal(w: real, h: real, time: real, config: FlareConfig)
    requires config.interval > 0.0 && time >= 0.0
    ensures DrawFlare(w, h, time, config).Some? ==>
              var f := DrawFlare(w, h, time, config).value;
              exists t :: 0.0 <= t <= 1.0 && f.cx == Along(-w * 0.3, w * 1.3, t)
                          && f.cy == Along(-h * 0.1, h * 0.5, t) && f.alpha == FlareAlpha(config.opacity, t)
  {
    var progress := FlareProgress(time, config.interval);
    if progress <= 0.6 {
      var t := ActiveProgress(progress);
      assert 0.0 <= t <= 1.0;
    }
  }

  // ---------------------------------------------------------------------
  // Breathing overlay
  // ---------------------------------------------------------------------

  datatype BreathingConfig = BreathingConfig(color: string, period: real, minOp: real, maxOp: real)

  /** (time % period) / period, with the period given in seconds. */
  function BreathingPhase(time: real, periodSec: real): real
    requires periodSec != 0.0
  {
    Rem(time, periodSec * 1000.0) / (periodSec * 1000.0)
  }

  /**
   * The overlay's alpha: minOp + (maxOp - minOp) * (0.5 + 0.5 sin(2 pi phase)),
   * with sin the sine function.
   */
  function BreathingAlpha(time: real, config: BreathingConfig, sin: real -> real): (a: real)
    requires config.period != 0.0
    ensures var s := sin(BreathingPhase(time, config.period) * PI * 2.0);
            config.minOp <= config.maxOp && -1.0 <= s <= 1.0 ==> config.minOp <= a <= config.maxOp
    ensures var s := sin(BreathingPhase(time, config.period) * PI * 2.0);
            (s == 1.0 ==> a == config.maxOp) && (s == -1.0 ==> a == config.minOp)
  {
    var s := sin(BreathingPhase(time, config.period) * PI * 2.0);
    Along(config.minOp, config.maxOp, 0.5 + 0.5 * s)
  }

  // ---------------------------------------------------------------------
  // Fog
  // ---------------------------------------------------------------------

  datatype Blob = Blob(x: real, y: real, r: real, phase: real)

  datatype FogConfig = FogConfig(color: string, count: nat, sizeLo: real, sizeHi: real, opacity: real, speed: real)

  /** The four Math.random() draws one new blob takes, in the order the source makes them. */
  datatype BlobDraws = BlobDraws(x: real, y: real, r: real, phase: real)

  predicate BlobDrawsValid(d: BlobDraws)
  {
    Unit(d.x) && Unit(d.y) && Unit(d.r) && Unit(d.phase)
  }

  /** Math.random() * k: a point in [0, k). */
  function Scatter(r: real, k: real): (v: real)
    requires Unit(r)
    ensures k > 0.0 ==> 0.0 <= v < k
  {
    UnitScaled(r, k);
    r * k
  }

  /** A new blob: anywhere in 1.5 canvas widths and the canvas height, with a radius from the size range. */
  function NewBlob(w: real, h: real, config: FogConfig, d: BlobDraws): (b: Blob)
    requires BlobDrawsValid(d)
    ensures config.sizeLo < config.sizeHi ==> config.sizeLo <= b.r < config.sizeHi
    ensures config.sizeLo == config.sizeHi ==> b.r == config.sizeLo
    ensures w > 0.0 ==> 0.0 <= b.x < w * 1.5
    ensures h > 0.0 ==> 0.0 <= b.y < h
  {
    Blob(Scatter(d.x, w * 1.5), Scatter(d.y, h), Along(config.sizeLo, config.sizeHi, d.r), d.phase * PI * 2.0)
  }

  predicate AllDrawsValid(draws: seq<BlobDraws>)
  {
    forall i | 0 <= i < |draws| :: BlobDrawsValid(draws[i])
  }

  /**
   * The pool after drawFog's maintenance: grown with new blobs up to the
   * configured count, or cut down to it. draws[k] are the draws of the k-th
   * blob pushed in this call.
   */
  function Resized(pool: seq<Blob>, w: real, h: real, config: FogConfig, draws: seq<BlobDraws>): (r: seq<Blob>)
    requires config.count <= |pool| + |draws| && AllDrawsValid(draws)
    ensures |r| == config.count
    ensures forall i | 0 <= i < |r| && i < |pool| :: r[i] == pool[i]
    ensures forall i | |pool| <= i < |r| :: r[i] == NewBlob(w, h, config, draws[i - |pool|])
  {
    if config.count <= |pool| then pool[..config.count]
    else
      var added := seq(config.count - |pool|, k requires 0 <= k < config.count - |pool| => NewBlob(w, h, config, draws[k]));
      assert forall i | |pool| <= i < config.count :: (pool + added)[i] == added[i - |pool|];
      pool + added
  }

  /** Every blob a call adds has a radius from the configured range. */
  lemma NewBlobsSized(pool: seq<Blob>, w: real, h: real, config: FogConfig, draws: seq<BlobDraws>)
    requires config.count <= |pool| + |draws| && AllDrawsValid(draws) && config.sizeLo < config.sizeHi
    ensures var r := Resized(pool, w, h, config, draws);
            forall i | |pool| <= i < |r| :: config.sizeLo <= r[i].r < config.sizeHi
  {
    var r := Resized(pool, w, h, config, draws);
    forall i | |pool| <= i < |r|
      ensures config.sizeLo <= r[i].r < config.sizeHi
    {
      assert BlobDrawsValid(draws[i - |pool|]);
    }
  }

  /** Once the pool has the configured size, later frames leave it as it is. */
  lemma ResizedStable(pool: seq<Blob>, w: real, h: real, config: FogConfig, draws: seq<BlobDraws>,
                      w2: real, h2: real, draws2: seq<BlobDraws>)
    requires config.count <= |pool| + |draws| && AllDrawsValid(draws) && AllDrawsValid(draws2)
    ensures var r := Resized(pool, w, h, config, draws);
            Resized(r, w2, h2, config, draws2) == r
  {
    var r := Resized(pool, w, h, config, draws);
    assert r[..config.count] == r;
  }

  /**
   * Where a blob is drawn across: its x drifts by time * speed, wraps within
   * 1.5 canvas widths, and is shifted a quarter width to the left.
   */
  function BlobScreenX(b: Blob, i: nat, time: real, config: FogConfig, w: real): (x: real)
    requires w != 0.0
    ensures b.x + time * config.speed * 0.001 * (0.5 + i as real * 0.1) >= 0.0 && w > 0.0 ==>
              -w * 0.25 <= x < w * 1.25
  {
    var travelled := b.x + time * config.speed * 0.001 * (0.5 + i as real * 0.1);
    RemBounds(travelled, w * 1.5);
    Rem(travelled, w * 1.5) - w * 0.25
  }

  /** The module-level blob pool that drawFog keeps between frames. */
  class FogPool {
    var blobs: seq<Blob>

    constructor()
      ensures blobs == []
    {
      blobs := [];
    }

    /** The maintenance at the start of drawFog: push new blobs while short, then truncate to the count. */
    method Maintain(w: real, h: real, config: FogConfig, draws: seq<BlobDraws>)
      requires config.count <= |blobs| + |draws| && AllDrawsValid(draws)
      modifies this
      ensures blobs == Resized(old(blobs), w, h, config, draws)
    {
      var start := |blobs|;
      var pool := blobs;
      while |pool| < config.count
        invariant start <= |pool| <= if start < config.count then config.count else start
        invariant pool[..start] == old(blobs)
        invariant forall i | start <= i < |pool| :: pool[i] == NewBlob(w, h, config, draws[i - start])
        decreases config.count - |pool|
      {
        pool := pool + [NewBlob(w, h, config, draws[|pool| - start])];
      }
      pool := pool[..config.count];
      blobs := pool;
    }
  }

  // ---------------------------------------------------------------------
  // Crystal growth
  // ---------------------------------------------------------------------

  /** min(1, (time % 30000) / 20000): twenty seconds of growth, then ten held at full length. */
  function GrowthProgress(time: real): (g: real)
    ensures time >= 0.0 ==> 0.0 <= g <= 1.0
    ensures time >= 0.0 && Rem(time, 30000.0) >= 20000.0 ==> g == 1.0
  {
    RemBounds(time, 30000.0);
    Min(1.0, Rem(time, 30000.0) / 20000.0)
  }

  /** In every 30-second cycle the frost is at full length from second 20 to second 30. */
  lemma GrowthHeld(k: nat, s: real)
    requires 20000.0 <= s < 30000.0
    ensures GrowthProgress(s + 30000.0 * k as real) == 1.0
  {
    RemPeriodic(s, 30000.0, k);
    RemOfSmall(s, 30000.0);
  }

  /** Math.min(w, h) * 0.15 * growthProgress. */
  function MaxLen(w: real, h: real, time: real): real
  {
    Min(w, h) * 0.15 * GrowthProgress(time)
  }

  datatype CrystalGrowthConfig = CrystalGrowthConfig(color: string, armCount: nat, maxDepth: int, lineWidth: real, opacity: real)

  /** One call of drawFractalBranch: its start, direction, length and depth. */
  datatype Branch = Branch(x: real, y: real, angle: real, length: real, maxDepth: int, depth: int)

  datatype Corner = Corner(x: real, y: real, baseAngle: real)

  /** The four corners the frost grows from, each pointing into the canvas. */
  function Corners(w: real, h: real): (cs: seq<Corner>)
    ensures |cs| == 4
  {
    [Corner(0.0, 0.0, PI * 0.25), Corner(w, 0.0, PI * 0.75), Corner(0.0, h, -PI * 0.25), Corner(w, h, -PI * 0.75)]
  }

  /** The direction of arm number `arm` of `armCount`, fanned around the corner's base angle. */
  function ArmAngle(baseAngle: real, arm: nat, armCount: nat): (a: real)
    requires arm < armCount
    ensures baseAngle - PI / 4.0 < a < baseAngle + PI / 4.0
  {
    ArmSpread(arm, armCount);
    baseAngle + ((arm as real - (armCount as real - 1.0) / 2.0) * PI) / (armCount as real * 2.0)
  }

  lemma ArmSpread(arm: nat, armCount: nat)
    requires arm < armCount
    ensures var off := ((arm as real - (armCount as real - 1.0) / 2.0) * PI) / (armCount as real * 2.0);
            -PI / 4.0 < off < PI / 4.0
  {
    var n := armCount as real;
    var m := arm as real - (n - 1.0) / 2.0;
    assert -n / 2.0 < m < n / 2.0;
    var q := m / (n * 2.0);
    assert q * (n * 2.0) == m;
    assert -0.25 < q < 0.25 by {
      if q >= 0.25 {
        ScaleLe(n * 2.0, 0.25, q);
      }
      if q <= -0.25 {
        ScaleLe(n * 2.0, q, -0.25);
      }
    }
    assert (m * PI) / (n * 2.0) == q * PI;
    ScaleLt(PI, -0.25, q);
    ScaleLt(PI, q, 0.25);
  }

  /** The arms one corner sends out: armCount branches of length maxLen at depth 0, fanned around its base angle. */
  function CornerArms(c: Corner, armCount: nat, maxLen: real, maxDepth: int): (bs: seq<Branch>)
    ensures |bs| == armCount
    ensures forall i | 0 <= i < |bs| :: bs[i].x == c.x && bs[i].y == c.y
    ensures forall i | 0 <= i < |bs| :: c.baseAngle - PI / 4.0 < bs[i].angle < c.baseAngle + PI / 4.0
    ensures forall i | 0 <= i < |bs| :: bs[i].length == maxLen && bs[i].maxDepth == maxDepth && bs[i].depth == 0
    ensures forall i | 0 <= i < |bs| :: bs[i] == Branch(c.x, c.y, ArmAngle(c.baseAngle, i, armCount), maxLen, maxDepth, 0)
  {
    var bs := seq(armCount, arm requires 0 <= arm < armCount =>
                    Branch(c.x, c.y, ArmAngle(c.baseAngle, arm, armCount), maxLen, maxDepth, 0));
    assert forall i | 0 <= i < |bs| :: bs[i].angle == ArmAngle(c.baseAngle, i, armCount);
    bs
  }

  /** The arms of several corners, corner after corner. */
  function Fan(cs: seq<Corner>, armCount: nat, maxLen: real, maxDepth: int): (bs: seq<Branch>)
    ensures |bs| == |cs| * armCount
    ensures forall i | 0 <= i < |bs| :: bs[i].length == maxLen && bs[i].maxDepth == maxDepth && bs[i].depth == 0
  {
    if cs == [] then []
    else
      var first := CornerArms(cs[0], armCount, maxLen, maxDepth);
      var rest := Fan(cs[1..], armCount, maxLen, maxDepth);
      assert forall i | 0 <= i < |first| + |rest| :: (first + rest)[i] == if i < |first| then first[i] else rest[i - |first|];
      first + rest
  }

  lemma {:induction false} FanSnoc(cs: seq<Corner>, c: Corner, armCount: nat, maxLen: real, maxDepth: int)
    ensures Fan(cs + [c], armCount, maxLen, maxDepth) == Fan(cs, armCount, maxLen, maxDepth) + CornerArms(c, armCount, maxLen, maxDepth)
  {
    if cs == [] {
      assert ([] + [c])[1..] == [];
    } else {
      assert (cs + [c])[1..] == cs[1..] + [c];
      FanSnoc(cs[1..], c, armCount, maxLen, maxDepth);
    }
  }

  /** The top-level branch calls of drawCrystalGrowth: none while the frost is under 2 px, else every corner's arms. */
  function TopLevelBranches(w: real, h: real, time: real, config: CrystalGrowthConfig): (bs: seq<Branch>)
    ensures |bs| == if MaxLen(w, h, time) < 2.0 then 0 else 4 * config.armCount
    ensures forall i | 0 <= i < |bs| :: bs[i].depth == 0 && bs[i].length == MaxLen(w, h, time) >= 2.0
    ensures forall i | 0 <= i < |bs| :: bs[i].maxDepth == config.maxDepth
  {
    var maxLen := MaxLen(w, h, time);
    if maxLen < 2.0 then [] else Fan(Corners(w, h), config.armCount, maxLen, config.maxDepth)
  }

  /** The inner loop of drawCrystalGrowth: one call per arm of a corner. */
  method Arms(c: Corner, armCount: nat, maxLen: real, maxDepth: int) returns (arms: seq<Branch>)
    ensures arms == CornerArms(c, armCount, maxLen, maxDepth)
  {
    arms := [];
    for arm := 0 to armCount
      invariant |arms| == arm
      invariant forall i | 0 <= i < arm :: arms[i] == Branch(c.x, c.y, ArmAngle(c.baseAngle, i, armCount), maxLen, maxDepth, 0)
    {
      arms := arms + [Branch(c.x, c.y, ArmAngle(c.baseAngle, arm, armCount), maxLen, maxDepth, 0)];
    }
  }

  /** The outer loop of drawCrystalGrowth: every corner's arms, corner after corner. */
  method FanOut(corners: seq<Corner>, armCount: nat, maxLen: real, maxDepth: int) returns (calls: seq<Branch>)
    ensures calls == Fan(corners, armCount, maxLen, maxDepth)
  {
    calls := [];
    for c := 0 to |corners|
      invariant calls == Fan(corners[..c], armCount, maxLen, maxDepth)
    {
      var arms := Arms(corners[c], armCount, maxLen, maxDepth);
      FanSnoc(corners[..c], corners[c], armCount, maxLen, maxDepth);
      assert corners[..c + 1] == corners[..c] + [corners[c]];
      calls := calls + arms;
    }
    assert corners[..|corners|] == corners;
  }

  /** The stroke alpha, config.opacity * (0.5 + 0.5 * growthProgress): from half the opacity up to all of it. */
  function StrokeAlpha(opacity: real, growth: real): (a: real)
    ensures opacity >= 0.0 && 0.0 <= growth <= 1.0 ==> opacity * 0.5 <= a <= opacity
  {
    ShareOf(opacity, 0.5, 0.5 + 0.5 * growth);
    opacity * (0.5 + 0.5 * growth)
  }

  /**
   * drawCrystalGrowth(ctx, w, h, time, config): when the frost is long
   * enough to draw, the alpha it strokes with and the branch calls it makes,
   * in order.
   */
  method CrystalGrowth(w: real, h: real, time: real, config: CrystalGrowthConfig)
    returns (alpha: Option<real>, calls: seq<Branch>)
    ensures alpha.None? <==> MaxLen(w, h, time) < 2.0
    ensures alpha.Some? && time >= 0.0 && config.opacity >= 0.0 ==>
              config.opacity * 0.5 <= alpha.value <= config.opacity
    ensures calls == TopLevelBranches(w, h, time, config)
  {
    var growth := GrowthProgress(time);
    var maxLen := MaxLen(w, h, time);
    if maxLen < 2.0 {
      return None, [];
    }
    alpha := Some(StrokeAlpha(config.opacity, growth));
    calls := FanOut(Corners(w, h), config.armCount, maxLen, config.maxDepth);
  }

  // ---------------------------------------------------------------------
  // Fractal branches
  // ---------------------------------------------------------------------

  /** One stroked line of the frost, from (x0, y0) to (x1, y1). */
  datatype Stroke = Stroke(x0: real, y0: real, x1: real, y1: real, length: real, depth: int)

  /** Whether drawFractalBranch draws anything for this call. */
  predicate Grows(b: Branch)
  {
    b.depth < b.maxDepth && b.length >= 3.0
  }

  /**
   * The calls a drawn branch makes: two side branches from 60% along it at
   * plus and minus 60 degrees with half its length, and, while below the last
   * level, two tip branches at plus and minus 36 degrees with 35% of its length.
   */
  function SubBranches(b: Branch, cos: real -> real, sin: real -> real): (r: seq<Branch>)
    ensures |r| == if b.depth < b.maxDepth - 1 then 4 else 2
    ensures forall i | 0 <= i < |r| :: r[i].depth == b.depth + 1 && r[i].maxDepth == b.maxDepth
    ensures forall i | 0 <= i < |r| :: b.length >= 0.0 ==> 0.0 <= r[i].length <= b.length / 2.0
  {
    var endX := b.x + cos(b.angle) * b.length;
    var endY := b.y + sin(b.angle) * b.length;
    var subLen := b.length * 0.5;
    var forkX := b.x + cos(b.angle) * b.length * 0.6;
    var forkY := b.y + sin(b.angle) * b.length * 0.6;
    var sides := [Branch(forkX, forkY, b.angle + PI / 3.0, subLen, b.maxDepth, b.depth + 1),
                  Branch(forkX, forkY, b.angle - PI / 3.0, subLen, b.maxDepth, b.depth + 1)];
    if b.depth < b.maxDepth - 1 then
      sides + [Branch(endX, endY, b.angle + PI / 5.0, subLen * 0.7, b.maxDepth, b.depth + 1),
               Branch(endX, endY, b.angle - PI / 5.0, subLen * 0.7, b.maxDepth, b.depth + 1)]
    else sides
  }

  /** The line a drawn branch strokes itself: from its start, length units in its direction. */
  function OwnStroke(b: Branch, cos: real -> real, sin: real -> real): (s: Stroke)
    ensures s.depth == b.depth && s.length == b.length && s.x0 == b.x && s.y0 == b.y
  {
    Stroke(b.x, b.y, b.x + cos(b.angle) * b.length, b.y + sin(b.angle) * b.length, b.length, b.depth)
  }

  /** The strokes drawFractalBranch(ctx, x, y, angle, length, maxDepth, depth) makes, in order. */
  function Strokes(b: Branch, cos: real -> real, sin: real -> real): (r: seq<Stroke>)
    ensures r == [] <==> !Grows(b)
    ensures r != [] ==> r[0] == OwnStroke(b, cos, sin)
    decreases Levels(b), 0
  {
    if !Grows(b) then []
    else [OwnStroke(b, cos, sin)] + Forest(SubBranches(b, cos, sin), b.maxDepth - b.depth - 1, cos, sin)
  }

  /** Levels left below a call: maxDepth - depth. */
  function Levels(b: Branch): int
  {
    b.maxDepth - b.depth
  }

  /** The strokes of the sibling calls bs, one call after the other; all of them have `level` levels left. */
  function Forest(bs: seq<Branch>, level: int, cos: real -> real, sin: real -> real): (r: seq<Stroke>)
    requires forall i | 0 <= i < |bs| :: Levels(bs[i]) == level
    decreases level, |bs|
  {
    if bs == [] then [] else Strokes(bs[0], cos, sin) + Forest(bs[1..], level, cos, sin)
  }

  /** Drawing the calls bs and then the calls cs makes the strokes of bs followed by those of cs. */
  lemma {:induction false} ForestAppend(bs: seq<Branch>, cs: seq<Branch>, level: int, cos: real -> real, sin: real -> real)
    requires forall i | 0 <= i < |bs| :: Levels(bs[i]) == level
    requires forall i | 0 <= i < |cs| :: Levels(cs[i]) == level
    ensures Forest(bs + cs, level, cos, sin) == Forest(bs, level, cos, sin) + Forest(cs, level, cos, sin)
    decreases |bs|
  {
    if bs != [] {
      assert (bs + cs)[1..] == bs[1..] + cs;
      ForestAppend(bs[1..], cs, level, cos, sin);
    } else {
      assert bs + cs == cs;
    }
  }

  /** One call on its own draws just its strokes. */
  lemma ForestSingle(c: Branch, cos: real -> real, sin: real -> real)
    ensures Forest([c], Levels(c), cos, sin) == Strokes(c, cos, sin)
  {
    assert [c][1..] == [];
  }

  /**
   * Every stroke lies between the call's depth and maxDepth, is at least 3
   * long and no longer than the call's length, and a stroke of a deeper call
   * is at most half that length.
   */
  lemma {:induction false} StrokesBounded(b: Branch, cos: real -> real, sin: real -> real)
    ensures forall s | s in Strokes(b, cos, sin) :: b.depth <= s.depth < b.maxDepth && 3.0 <= s.length <= b.length
    ensures forall s | s in Strokes(b, cos, sin) :: s.depth > b.depth ==> s.length <= b.length / 2.0
    decreases Levels(b), 0
  {
    if Grows(b) {
      var kids := SubBranches(b, cos, sin);
      ForestBounded(kids, b.maxDepth - b.depth - 1, b.depth + 1, b.length / 2.0, cos, sin);
    }
  }

  /** The strokes of sibling calls at depth d, each at most `cap` long, obey the same bounds. */
  lemma {:induction false} ForestBounded(bs: seq<Branch>, level: int, d: int, cap: real, cos: real -> real, sin: real -> real)
    requires forall i | 0 <= i < |bs| :: Levels(bs[i]) == level
    requires forall i | 0 <= i < |bs| :: bs[i].depth == d && bs[i].length <= cap
    ensures forall s | s in Forest(bs, level, cos, sin) :: d <= s.depth < d + level && 3.0 <= s.length <= cap
    decreases level, |bs|
  {
    if bs != [] {
      StrokesBounded(bs[0], cos, sin);
      ForestBounded(bs[1..], level, d, cap, cos, sin);
    }
  }

  function Pow4(n: nat): (p: nat)
    ensures p >= 1
  {
    if n == 0 then 1 else 4 * Pow4(n - 1)
  }

  /** A branch with k levels left draws fewer than 4^k strokes. */
  lemma {:induction false} StrokeCount(b: Branch, cos: real -> real, sin: real -> real)
    requires b.depth <= b.maxDepth
    ensures |Strokes(b, cos, sin)| < Pow4(b.maxDepth - b.depth)
    decreases Levels(b), 0
  {
    if Grows(b) {
      var k := b.maxDepth - b.depth;
      var kids := SubBranches(b, cos, sin);
      ForestCount(kids, k - 1, cos, sin);
      assert Pow4(k) == 4 * Pow4(k - 1);
    }
  }

  /** Sibling calls with `level` levels left draw at most 4^level - 1 strokes each. */
  lemma {:induction false} ForestCount(bs: seq<Branch>, level: nat, cos: real -> real, sin: real -> real)
    requires forall i | 0 <= i < |bs| :: Levels(bs[i]) == level
    ensures |Forest(bs, level, cos, sin)| <= |bs| * (Pow4(level) - 1)
    decreases level, |bs|
  {
    if bs != [] {
      StrokeCount(bs[0], cos, sin);
      ForestCount(bs[1..], level, cos, sin);
      assert |bs| * (Pow4(level) - 1) == (Pow4(level) - 1) + (|bs| - 1) * (Pow4(level) - 1);
    }
  }

  // ---------------------------------------------------------------------
  // colorWithAlpha
  // ---------------------------------------------------------------------

  /**
   * What colorWithAlpha produces: an rgba() colour from the channels
   * parseInt read (None where it gave NaN), or the input unchanged.
   */
  datatype Color = Rgba(r: Option<int>, g: Option<int>, b: Option<int>, alpha: real) | Verbatim(text: string)

  /** colorWithAlpha(hex, alpha): #RRGGBB and #RGB become rgba(); anything else is returned as it is. */
  function ColorWithAlpha(hex: string, alpha: real): (c: Color)
    ensures c.Verbatim? <==> !(hex != [] && hex[0] == '#' && (|hex| == 7 || |hex| == 4))
    ensures c.Verbatim? ==> c.text == hex
    ensures c.Rgba? ==> c.alpha == alpha
  {
    if hex != [] && hex[0] == '#' && |hex| == 7 then
      Rgba(ParseInt16(hex[1..3]), ParseInt16(hex[3..5]), ParseInt16(hex[5..7]), alpha)
    else if hex != [] && hex[0] == '#' && |hex| == 4 then
      Rgba(ParseInt16([hex[1], hex[1]]), ParseInt16([hex[2], hex[2]]), ParseInt16([hex[3], hex[3]]), alpha)
    else Verbatim(hex)
  }

  /** "#" followed by three bytes as lower-case hex digit pairs. */
  function Hex6(r: nat, g: nat, b: nat): (s: string)
    requires r < 256 && g < 256 && b < 256
    ensures |s| == 7 && s[0] == '#'
  {
    "#" + HexByte(r) + HexByte(g) + HexByte(b)
  }

  /** A colour written as #RRGGBB comes back as exactly its three channels. */
  lemma Hex6RoundTrip(r: nat, g: nat, b: nat, alpha: real)
    requires r < 256 && g < 256 && b < 256
    ensures ColorWithAlpha(Hex6(r, g, b), alpha) == Rgba(Some(r), Some(g), Some(b), alpha)
  {
    var s := Hex6(r, g, b);
    var head := "#" + HexByte(r) + HexByte(g);
    assert |head| == 5;
    assert s == head + HexByte(b);
    assert s[1..3] == HexByte(r);
    assert s[3..5] == HexByte(g);
    assert s[5..] == HexByte(b);
    assert s[5..7] == s[5..];
    HexByteParsed(r);
    HexByteParsed(g);
    HexByteParsed(b);
  }

  /** A byte's two hex digits are read by parseInt as the byte. */
  lemma HexByteParsed(n: nat)
    requires n < 256
    ensures ParseInt16(HexByte(n)) == Some(n)
  {
    HexByteDigits(n);
    HexDigitsPlain(HexByte(n));
    HexByteRoundTrip(n);
  }

  /** parseInt of a doubled hexadecimal digit: 17 times its value. */
  lemma DoubledDigit(a: char)
    requires IsHexDigit(a)
    ensures ParseInt16([a, a]) == Some(HexDigitValue(a) * 17)
  {
    HexDigitsPlain([a, a]);
    ParseTwoHexDigits(a, a);
  }

  /** #RGB gives every channel as its digit doubled. */
  lemma ShortHexValue(a: char, b: char, c: char, alpha: real)
    requires IsHexDigit(a) && IsHexDigit(b) && IsHexDigit(c)
    ensures ColorWithAlpha(['#', a, b, c], alpha)
            == Rgba(Some(HexDigitValue(a) * 17), Some(HexDigitValue(b) * 17), Some(HexDigitValue(c) * 17), alpha)
  {
    DoubledDigit(a);
    DoubledDigit(b);
    DoubledDigit(c);
  }

  /** #RGB means the same colour as #RRGGBB with every digit doubled. */
  lemma ShortHexExpands(a: char, b: char, c: char, alpha: real)
    requires IsHexDigit(a) && IsHexDigit(b) && IsHexDigit(c)
    ensures ColorWithAlpha(['#', a, b, c], alpha) == ColorWithAlpha(['#', a, a, b, b, c, c], alpha)
  {
    var long := ['#', a, a, b, b, c, c];
    assert long[1..3] == [a, a] && long[3..5] == [b, b] && long[5..7] == [c, c];
    ShortHexValue(a, b, c, alpha);
    DoubledDigit(a);
    DoubledDigit(b);
    DoubledDigit(c);
  }
}

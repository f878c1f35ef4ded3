/**
 * The particle engine of the seasonal effects: createParticle, which builds
 * a particle of a named type with ranges scaled by a random depth, and
 * updateParticle, which ages a particle by one frame, moves it by its type,
 * wraps it around the canvas, loops or retires it, and reports whether it
 * is still alive. The culling test at the head of drawParticle is the last
 * piece.
 *
 * Every Math.random() draw is a parameter in [0, 1); Math.sin is a
 * parameter function. The per-type canvas renderers are not part of this
 * model.
 */
module ParticleEngine {
  import opened Js

  // ---------------------------------------------------------------------
  // Data
  // ---------------------------------------------------------------------

  /** A particle as createParticle returns it; color None is the undefined that pick([]) gives. */
  datatype ParticleState = ParticleState(
    x: real, y: real, vx: real, vy: real,
    size: real, baseSize: real, opacity: real, baseOpacity: real,
    rotation: real, rotationSpeed: real, depth: real,
    life: real, maxLife: real, phase: real,
    color: Option<string>, ptype: string)

  /** The only part of a particle config that createParticle reads: an optional colour list. */
  datatype ParticleConfig = ParticleConfig(colors: Option<seq<string>>)

  datatype Wind = Wind(x: real, y: real)

  /** The branches of the type switches; every type without a branch of its own is Generic. */
  datatype Kind = Sakura | Snow | Rain | Leaf | Gold | Star | Sparkle | Crystal | Generic

  /** The branch a type name takes. */
  function KindOf(t: string): (k: Kind)
    ensures k == Generic <==> t !in {"sakura", "snow", "rain", "leaf", "gold", "star", "sparkle", "crystal"}
  {
    match t
    case "sakura" => Sakura
    case "snow" => Snow
    case "rain" => Rain
    case "leaf" => Leaf
    case "gold" => Gold
    case "star" => Star
    case "sparkle" => Sparkle
    case "crystal" => Crystal
    case _ => Generic
  }

  /** The types that sit still and are not wrapped around the edges. */
  predicate Fixed(k: Kind)
  {
    k == Star || k == Sparkle || k == Crystal
  }

  /** The types whose particles die at the end of their life. */
  predicate Ephemeral(k: Kind)
  {
    k == Crystal || k == Gold
  }

  /** The types whose particles restart their life instead of dying. */
  predicate Looping(k: Kind)
  {
    k == Sparkle || k == Star
  }

  // ---------------------------------------------------------------------
  // Random helpers
  // ---------------------------------------------------------------------

  /** rand(min, max) = min + Math.random() * (max - min). */
  function Rand(lo: real, hi: real, r: real): (v: real)
    requires lo < hi && Unit(r)
    ensures lo <= v < hi
  {
    UnitBelow(r, hi - lo, r * (hi - lo));
    lo + r * (hi - lo)
  }

  /** pick(arr): an element of a non-empty list, undefined (None) for an empty one. */
  function Pick(list: seq<string>, r: real): (c: Option<string>)
    requires Unit(r)
    ensures c.None? <==> list == []
    ensures c.Some? ==> c.value in list
  {
    if list == [] then None else Some(list[PickIndex(r, |list|)])
  }

  /** config.colors ?? defaults, then pick. */
  function PickColor(config: ParticleConfig, defaults: seq<string>, r: real): (c: Option<string>)
    requires Unit(r) && defaults != []
    ensures config.colors.None? ==> c.Some? && c.value in defaults
    ensures config.colors.Some? ==> c == Pick(config.colors.value, r)
  {
    Pick(if config.colors.Some? then config.colors.value else defaults, r)
  }

  /** depthScale and depthOpacity: 0.3 + depth * 0.7. */
  function DepthFactor(depth: real): (f: real)
    requires Unit(depth)
    ensures 0.3 <= f < 1.0
  {
    0.3 + depth * 0.7
  }

  /** rand(lo, hi) scaled by a depth factor: positive and below hi. */
  function Scaled(lo: real, hi: real, r: real, f: real): (v: real)
    requires 0.0 < lo < hi && Unit(r) && 0.3 <= f < 1.0
    ensures lo * 0.3 <= v < hi && v > 0.0
  {
    var base := Rand(lo, hi, r);
    ScaledBounds(lo, hi, base, f, base * f);
    base * f
  }

  lemma ScaledBounds(lo: real, hi: real, base: real, f: real, product: real)
    requires 0.0 < lo <= base < hi && 0.3 <= f < 1.0 && product == base * f
    ensures lo * 0.3 <= product < hi
  {
    ScaleLt(base, f, 1.0);
    ScaleLe(base, 0.3, f);
    assert base * 1.0 == base && base * f == product;
    assert lo * 0.3 <= base * 0.3;
  }

  // ---------------------------------------------------------------------
  // createParticle
  // ---------------------------------------------------------------------

  /**
   * The draws createParticle may read: the shared ones (depth, position,
   * rotation, spin, life, phase), then the per-type ones. Star and sparkle
   * draw their size and base size separately (size2), every type draws its
   * opacity and base opacity separately (opacity2), and the star draws a
   * second position (x2, y2).
   */
  datatype CreateDraws = CreateDraws(
    depth: real, x: real, y: real, rotation: real, spin: real, life: real, phase: real,
    size: real, size2: real, opacity: real, opacity2: real, vy: real, vx: real, spin2: real,
    color: real, life2: real, x2: real, y2: real)

  predicate CreateDrawsValid(d: CreateDraws)
  {
    Unit(d.depth) && Unit(d.x) && Unit(d.y) && Unit(d.rotation) && Unit(d.spin) && Unit(d.life)
    && Unit(d.phase) && Unit(d.size) && Unit(d.size2) && Unit(d.opacity) && Unit(d.opacity2)
    && Unit(d.vy) && Unit(d.vx) && Unit(d.spin2) && Unit(d.color) && Unit(d.life2) && Unit(d.x2) && Unit(d.y2)
  }


  /** The fields every type starts from, before its own branch overrides some of them. */
  function BaseParticle(t: string, w: real, h: real, d: CreateDraws): (p: ParticleState)
    requires CreateDrawsValid(d)
    ensures p.life == 0.0 && p.depth == d.depth && p.ptype == t && 300.0 <= p.maxLife < 800.0
  {
    ParticleState(d.x * w, d.y * h, 0.0, 0.0, 4.0, 4.0, 0.6, 0.6,
                  d.rotation * PI * 2.0, Rand(-0.02, 0.02, d.spin), d.depth,
                  0.0, Rand(300.0, 800.0, d.life), d.phase * PI * 2.0, Some("#ffffff"), t)
  }

  /** A [min, max) range of one of createParticle's rand calls. */
  datatype Range = Range(min: real, max: real)

  /** A positive range whose values scaled by a depth factor stay positive, and stay below 1 for an opacity. */
  predicate PositiveRange(r: Range) { 0.0 < r.min < r.max }

  /** What every fresh particle has: no age yet, its depth, its type, visible sizes and opacities, a long enough life. */
  predicate Fresh(p: ParticleState, t: string, d: CreateDraws)
  {
    p.life == 0.0 && p.depth == d.depth && 0.0 <= p.depth < 1.0 && p.ptype == t
    && p.size > 0.0 && p.baseSize > 0.0 && 0.0 < p.baseOpacity < 1.0 && 0.0 <= p.opacity < 1.0
    && p.maxLife >= 100.0
  }

  /**
   * The sakura, snow and leaf branches: one size draw for size and base size,
   * opacities and fall speed scaled by depth, a sideways speed and a spin of
   * their own ranges.
   */
  function Drifting(t: string, w: real, h: real, config: ParticleConfig, d: CreateDraws,
                    size: Range, opacity: Range, vy: Range, vx: Range, spin: Range, colors: seq<string>)
    : (p: ParticleState)
    requires CreateDrawsValid(d) && PositiveRange(size) && PositiveRange(opacity) && opacity.max <= 1.0
    requires PositiveRange(vy) && vx.min < vx.max && spin.min < spin.max && colors != []
    ensures Fresh(p, t, d) && p.x == d.x * w && p.y == d.y * h
    ensures config.colors.None? ==> p.color.Some?
  {
    var f := DepthFactor(d.depth);
    var sz := Scaled(size.min, size.max, d.size, f);
    BaseParticle(t, w, h, d).(
      size := sz, baseSize := sz, opacity := Scaled(opacity.min, opacity.max, d.opacity, f),
      baseOpacity := Scaled(opacity.min, opacity.max, d.opacity2, f), vy := Scaled(vy.min, vy.max, d.vy, f),
      vx := Rand(vx.min, vx.max, d.vx), rotationSpeed := Rand(spin.min, spin.max, d.spin2),
      color := PickColor(config, colors, d.color))
  }

  /** The rain branch: fast, slanted, no spin. */
  function RainParticle(t: string, w: real, h: real, config: ParticleConfig, d: CreateDraws): (p: ParticleState)
    requires CreateDrawsValid(d)
    ensures Fresh(p, t, d) && p.x == d.x * w && p.y == d.y * h && p.rotationSpeed == 0.0
    ensures config.colors.None? ==> p.color.Some?
  {
    var f := DepthFactor(d.depth);
    var sz := Scaled(8.0, 20.0, d.size, f);
    BaseParticle(t, w, h, d).(
      size := sz, baseSize := sz, opacity := Scaled(0.15, 0.4, d.opacity, f),
      baseOpacity := Scaled(0.15, 0.4, d.opacity2, f), vy := Scaled(6.0, 14.0, d.vy, f),
      vx := Rand(0.5, 2.0, d.vx), rotationSpeed := 0.0,
      color := PickColor(config, ["#A4C8E1", "#87CEEB", "#B0C4DE"], d.color))
  }

  /** The gold branch: a slow drift up or down, no spin, a shorter life. */
  function GoldParticle(t: string, w: real, h: real, config: ParticleConfig, d: CreateDraws): (p: ParticleState)
    requires CreateDrawsValid(d)
    ensures Fresh(p, t, d) && p.x == d.x * w && p.y == d.y * h && p.rotationSpeed == 0.0
    ensures 200.0 <= p.maxLife < 500.0
    ensures config.colors.None? ==> p.color.Some?
  {
    var f := DepthFactor(d.depth);
    var sz := Scaled(2.0, 5.0, d.size, f);
    BaseParticle(t, w, h, d).(
      size := sz, baseSize := sz, opacity := Scaled(0.3, 0.7, d.opacity, f),
      baseOpacity := Scaled(0.3, 0.7, d.opacity2, f), vy := Rand(-0.1, 0.2, d.vy),
      vx := Rand(-0.1, 0.1, d.vx), rotationSpeed := 0.0,
      color := PickColor(config, ["#FFD700", "#FFC107", "#FFEB3B", "#F9A825"], d.color),
      maxLife := Rand(200.0, 500.0, d.life2))
  }

  /** The star branch: a second position in the upper 70% of the canvas, still, no spin. */
  function StarParticle(t: string, w: real, h: real, config: ParticleConfig, d: CreateDraws): (p: ParticleState)
    requires CreateDrawsValid(d)
    ensures Fresh(p, t, d) && p.x == d.x2 * w && p.y == d.y2 * h * 0.7
    ensures p.rotationSpeed == 0.0 && p.vx == 0.0 && p.vy == 0.0
    ensures config.colors.None? ==> p.color.Some?
  {
    var f := DepthFactor(d.depth);
    BaseParticle(t, w, h, d).(
      x := d.x2 * w, y := d.y2 * h * 0.7, size := Scaled(1.0, 3.0, d.size, f),
      baseSize := Scaled(1.0, 3.0, d.size2, f), opacity := Scaled(0.1, 0.7, d.opacity, f),
      baseOpacity := Scaled(0.1, 0.7, d.opacity2, f), vy := 0.0, vx := 0.0, rotationSpeed := 0.0,
      color := PickColor(config, ["#FFFFFF", "#FFFDE7", "#FFF9C4"], d.color),
      maxLife := Rand(400.0, 1200.0, d.life2))
  }

  /** The sparkle branch: still, invisible until its cycle fades it in. */
  function SparkleParticle(t: string, w: real, h: real, config: ParticleConfig, d: CreateDraws): (p: ParticleState)
    requires CreateDrawsValid(d)
    ensures Fresh(p, t, d) && p.x == d.x * w && p.y == d.y * h
    ensures p.opacity == 0.0 && p.vx == 0.0 && p.vy == 0.0
    ensures config.colors.None? ==> p.color.Some?
  {
    var f := DepthFactor(d.depth);
    BaseParticle(t, w, h, d).(
      size := Scaled(2.0, 6.0, d.size, f), baseSize := Scaled(2.0, 6.0, d.size2, f), opacity := 0.0,
      baseOpacity := Scaled(0.3, 0.8, d.opacity2, f), vy := 0.0, vx := 0.0,
      rotationSpeed := Rand(-0.01, 0.01, d.spin2),
      color := PickColor(config, ["#FFFFFF", "#E0F7FA", "#B2EBF2"], d.color),
      maxLife := Rand(100.0, 300.0, d.life2))
  }

  /** The crystal branch: still, invisible until it forms. */
  function CrystalParticle(t: string, w: real, h: real, config: ParticleConfig, d: CreateDraws): (p: ParticleState)
    requires CreateDrawsValid(d)
    ensures Fresh(p, t, d) && p.x == d.x * w && p.y == d.y * h
    ensures p.opacity == 0.0 && p.vx == 0.0 && p.vy == 0.0
    ensures config.colors.None? ==> p.color.Some?
  {
    var f := DepthFactor(d.depth);
    var sz := Scaled(8.0, 20.0, d.size, f);
    BaseParticle(t, w, h, d).(
      size := sz, baseSize := sz, opacity := 0.0, baseOpacity := Scaled(0.2, 0.5, d.opacity2, f),
      vy := 0.0, vx := 0.0, rotationSpeed := Rand(-0.005, 0.005, d.spin2),
      color := PickColor(config, ["#E0F7FA", "#B2EBF2", "#80DEEA", "#FFFFFF"], d.color),
      maxLife := Rand(300.0, 600.0, d.life2))
  }

  /** The generic branch, for every other type: the base spin is kept. */
  function GenericParticle(t: string, w: real, h: real, config: ParticleConfig, d: CreateDraws): (p: ParticleState)
    requires CreateDrawsValid(d)
    ensures Fresh(p, t, d) && p.x == d.x * w && p.y == d.y * h
    ensures config.colors.None? ==> p.color.Some?
  {
    var f := DepthFactor(d.depth);
    var sz := Scaled(2.0, 6.0, d.size, f);
    BaseParticle(t, w, h, d).(
      size := sz, baseSize := sz, opacity := Scaled(0.2, 0.6, d.opacity, f),
      baseOpacity := Scaled(0.2, 0.6, d.opacity2, f), vy := Scaled(0.1, 0.5, d.vy, f),
      vx := Rand(-0.2, 0.2, d.vx), color := PickColor(config, ["#FFFFFF", "#E0E0E0"], d.color))
  }

  /** createParticle(type, canvasW, canvasH, config). */
  function CreateParticle(t: string, w: real, h: real, config: ParticleConfig, d: CreateDraws): (p: ParticleState)
    requires CreateDrawsValid(d)
    ensures Fresh(p, t, d)
    ensures var k := KindOf(t); k == Sparkle || k == Crystal ==> p.opacity == 0.0
    ensures var k := KindOf(t); k == Rain || k == Gold || k == Star ==> p.rotationSpeed == 0.0
    ensures Fixed(KindOf(t)) ==> p.vx == 0.0 && p.vy == 0.0
    ensures KindOf(t) != Star ==> p.x == d.x * w && p.y == d.y * h
    ensures KindOf(t) == Star ==> p.x == d.x2 * w && p.y == d.y2 * h * 0.7
    ensures config.colors.None? ==> p.color.Some?
  {
    match KindOf(t)
    case Sakura =>
      Drifting(t, w, h, config, d, Range(6.0, 14.0), Range(0.5, 0.9), Range(0.3, 1.2), Range(-0.3, 0.3),
               Range(-0.03, 0.03), ["#FFB7C5", "#FADADD", "#FFFFFF", "#F8A4B8"])
    case Snow =>
      Drifting(t, w, h, config, d, Range(2.0, 12.0), Range(0.4, 0.9), Range(0.2, 0.8), Range(-0.2, 0.2),
               Range(-0.01, 0.01), ["#FFFFFF", "#E8F0FE", "#D6EAF8"])
    case Rain => RainParticle(t, w, h, config, d)
    case Leaf =>
      Drifting(t, w, h, config, d, Range(8.0, 16.0), Range(0.5, 0.85), Range(0.6, 2.0), Range(-0.5, 0.5),
               Range(-0.02, 0.02), ["#D4A017", "#C0392B", "#8B4513", "#DAA520", "#A0522D"])
    case Gold => GoldParticle(t, w, h, config, d)
    case Star => StarParticle(t, w, h, config, d)
    case Sparkle => SparkleParticle(t, w, h, config, d)
    case Crystal => CrystalParticle(t, w, h, config, d)
    case Generic => GenericParticle(t, w, h, config, d)
  }

  /** A fresh particle starts inside the canvas; a star in its upper 70%. */
  lemma CreatedOnCanvas(t: string, w: real, h: real, config: ParticleConfig, d: CreateDraws)
    requires CreateDrawsValid(d) && w >= 0.0 && h >= 0.0
    ensures var p := CreateParticle(t, w, h, config, d);
            0.0 <= p.x <= w && 0.0 <= p.y <= (if KindOf(t) == Star then h * 0.7 else h)
  {
    var p := CreateParticle(t, w, h, config, d);
    if KindOf(t) == Star {
      DrawScale(d.x2, w, p.x);
      DrawScale(d.y2, h * 0.7, d.y2 * (h * 0.7));
      assert p.y == d.y2 * (h * 0.7);
    } else {
      DrawScale(d.x, w, p.x);
      DrawScale(d.y, h, p.y);
    }
  }

  lemma DrawScale(r: real, n: real, product: real)
    requires Unit(r) && n >= 0.0 && product == r * n
    ensures 0.0 <= product <= n
  {
    if n > 0.0 {
      UnitBelow(r, n, product);
    }
  }

  /** Every type createParticle has no branch for gets the generic particle, whatever its name. */
  lemma UnknownTypesAlike(t: string, u: string, w: real, h: real, config: ParticleConfig, d: CreateDraws)
    requires CreateDrawsValid(d) && KindOf(t) == Generic && KindOf(u) == Generic
    ensures CreateParticle(t, w, h, config, d) == CreateParticle(u, w, h, config, d).(ptype := t)
  {
  }

  // ---------------------------------------------------------------------
  // updateParticle, as a specification
  // ---------------------------------------------------------------------

  /** The Math.random() draws updateParticle may read: the star flash, the wrap respawn x, the sparkle restart. */
  datatype UpdateDraws = UpdateDraws(flash: real, wrapX: real, resetX: real, resetY: real)

  /** depthSpeed: 0.4 + depth * 0.6. */
  function DepthSpeed(depth: real): real
  {
    0.4 + depth * 0.6
  }

  /** The sakura branch: flutter, fall, damping, oscillating spin and a breathing size. */
  function SakuraMotion(p: ParticleState, wind: Wind, dt: real, heightFactor: real, sin: real -> real): ParticleState
  {
    var flutter := sin(p.life * 0.003 + p.phase) * 1.2;
    var vx := p.vx + (wind.x * heightFactor * 0.06 + flutter * 0.02) * dt;
    var vy := p.vy + 0.005 * dt;
    var ds := DepthSpeed(p.depth);
    p.(x := p.x + vx * ds * dt, y := p.y + vy * ds * dt, vx := vx * 0.98, vy := vy * 0.995,
       rotation := p.rotation + (p.rotationSpeed + sin(p.life * 0.002 + p.phase) * 0.02) * dt,
       size := p.baseSize * (0.9 + 0.1 * sin(p.life * 0.004 + p.phase)))
  }

  /** The snow branch: a two-wave sway, fall and damping. */
  function SnowMotion(p: ParticleState, wind: Wind, dt: real, heightFactor: real, sin: real -> real): ParticleState
  {
    var sway := sin(p.life * 0.0015 + p.phase) * 0.4 + sin(p.life * 0.0037 + p.phase * 1.7) * 0.2;
    var vx := p.vx + (wind.x * heightFactor * 0.03 + sway * 0.01) * dt;
    var vy := p.vy + 0.002 * dt;
    var ds := DepthSpeed(p.depth);
    p.(x := p.x + vx * ds * dt, y := p.y + vy * ds * dt, vx := vx * 0.99, vy := vy * 0.998,
       rotation := p.rotation + p.rotationSpeed * dt)
  }

  /** The rain branch: wind on the sideways speed only. */
  function RainMotion(p: ParticleState, wind: Wind, dt: real, heightFactor: real): ParticleState
  {
    var vx := p.vx + wind.x * heightFactor * 0.02 * dt;
    var ds := DepthSpeed(p.depth);
    p.(x := p.x + vx * ds * dt, y := p.y + p.vy * ds * dt, vx := vx * 0.99)
  }

  /** The leaf branch: flutter, fall, damping and an oscillating spin. */
  function LeafMotion(p: ParticleState, wind: Wind, dt: real, heightFactor: real, sin: real -> real): ParticleState
  {
    var leafFlutter := sin(p.life * 0.002 + p.phase) * 0.8;
    var vx := p.vx + (wind.x * heightFactor * 0.05 + leafFlutter * 0.015) * dt;
    var vy := p.vy + 0.008 * dt;
    var ds := DepthSpeed(p.depth);
    p.(x := p.x + vx * ds * dt, y := p.y + vy * ds * dt, vx := vx * 0.98, vy := vy * 0.997,
       rotation := p.rotation + (p.rotationSpeed + sin(p.life * 0.0015 + p.phase) * 0.015) * dt)
  }

  /** The gold branch: a drift and a twinkling opacity. */
  function GoldMotion(p: ParticleState, wind: Wind, dt: real, sin: real -> real): ParticleState
  {
    var ds := DepthSpeed(p.depth);
    p.(x := p.x + (p.vx + wind.x * 0.01) * ds * dt, y := p.y + p.vy * ds * dt,
       opacity := p.baseOpacity * (0.4 + 0.6 * Abs(sin(p.life * 0.005 + p.phase))))
  }

  /** The star branch: only a twinkle, with a rare flash when the draw falls below 0.001 * dt. */
  function StarMotion(p: ParticleState, dt: real, sin: real -> real, flash: real): ParticleState
  {
    var twinkle := sin(p.life * 0.003 + p.phase) * 0.5 + 0.5;
    p.(opacity := if flash < 0.001 * dt then Min(1.0, p.baseOpacity * 1.8)
                  else 0.1 + (p.baseOpacity - 0.1) * twinkle)
  }

  /** The generic branch: a drift with the wind. */
  function GenericMotion(p: ParticleState, wind: Wind, dt: real): ParticleState
  {
    var ds := DepthSpeed(p.depth);
    p.(x := p.x + (p.vx + wind.x * 0.02) * ds * dt, y := p.y + p.vy * ds * dt)
  }

  /** The frame's movement and envelopes by type; life has already advanced and heightFactor is of the old y. */
  function Motion(p: ParticleState, wind: Wind, dt: real, heightFactor: real, sin: real -> real, flash: real)
    : (r: ParticleState)
    requires p.maxLife != 0.0
    ensures r.life == p.life && r.maxLife == p.maxLife && r.baseSize == p.baseSize && r.baseOpacity == p.baseOpacity
    ensures r.depth == p.depth && r.phase == p.phase && r.color == p.color && r.ptype == p.ptype
    ensures r.rotationSpeed == p.rotationSpeed
    ensures Fixed(KindOf(p.ptype)) ==> r.x == p.x && r.y == p.y
  {
    match KindOf(p.ptype)
    case Sakura => SakuraMotion(p, wind, dt, heightFactor, sin)
    case Snow => SnowMotion(p, wind, dt, heightFactor, sin)
    case Rain => RainMotion(p, wind, dt, heightFactor)
    case Leaf => LeafMotion(p, wind, dt, heightFactor, sin)
    case Gold => GoldMotion(p, wind, dt, sin)
    case Star => StarMotion(p, dt, sin, flash)
    case Sparkle =>
      p.(opacity := Envelope(p.baseOpacity, CycleProgress(p.life, p.maxLife)),
         rotation := p.rotation + p.rotationSpeed * dt)
    case Crystal =>
      var cp := p.life / p.maxLife;
      p.(opacity := Envelope(p.baseOpacity, cp), size := CrystalSize(p.baseSize, cp),
         rotation := p.rotation + p.rotationSpeed * dt)
    case Generic => GenericMotion(p, wind, dt)
  }

  /** (life % maxLife) / maxLife: where a sparkle is in its cycle. */
  function CycleProgress(life: real, maxLife: real): (c: real)
    requires maxLife != 0.0
    ensures life >= 0.0 && maxLife > 0.0 ==> 0.0 <= c < 1.0
  {
    CycleBounds(life, maxLife);
    Rem(life, maxLife) / maxLife
  }

  lemma CycleBounds(life: real, maxLife: real)
    requires maxLife != 0.0
    ensures life >= 0.0 && maxLife > 0.0 ==> 0.0 <= Rem(life, maxLife) / maxLife < 1.0
  {
    if life >= 0.0 && maxLife > 0.0 {
      RemOfNonNegative(life, maxLife);
      DivBounds(Rem(life, maxLife), maxLife);
    }
  }

  /** The rising share over the first 30%: cp / 0.3. */
  function Rising(cp: real): (t: real)
    ensures 0.0 <= cp <= 0.3 ==> 0.0 <= t <= 1.0
    ensures cp == 0.0 ==> t == 0.0
  {
    cp / 0.3
  }

  /** The falling share over the last 30%: 1 - (cp - 0.7) / 0.3. */
  function Falling(cp: real): (t: real)
    ensures 0.7 <= cp <= 1.0 ==> 0.0 <= t <= 1.0
    ensures cp == 1.0 ==> t == 0.0
  {
    1.0 - (cp - 0.7) / 0.3
  }

  /** The crystal's shrinking share over the last 30%: 1 - (cp - 0.7) / 0.3 * 0.3. */
  function Shrinking(cp: real): (t: real)
    ensures 0.7 <= cp <= 1.0 ==> 0.7 <= t <= 1.0
  {
    assert (cp - 0.7) / 0.3 * 0.3 == cp - 0.7;
    1.0 - (cp - 0.7) / 0.3 * 0.3
  }

  /** The share t of an amount d: d * t, within [0, d] for a share in [0, 1]. */
  function Share(d: real, t: real): (r: real)
    ensures d >= 0.0 && 0.0 <= t <= 1.0 ==> 0.0 <= r <= d
    ensures d >= 0.0 && 0.7 <= t ==> d * 0.7 <= r
    ensures t == 0.0 ==> r == 0.0
  {
    ShareOf(d, 0.0, t);
    ShareOf(d, 0.7, t);
    d * t
  }

  /**
   * The opacity envelope sparkles (over a cycle) and crystals (over their
   * life) share: fade in over the first 30%, full to 70%, fade out to the end.
   */
  function Envelope(base: real, cp: real): (o: real)
    ensures base >= 0.0 && 0.0 <= cp <= 1.0 ==> 0.0 <= o <= base
    ensures 0.3 <= cp < 0.7 ==> o == base
    ensures cp == 0.0 || cp == 1.0 ==> o == 0.0
  {
    if cp < 0.3 then Share(base, Rising(cp))
    else if cp < 0.7 then base
    else Share(base, Falling(cp))
  }

  /** The crystal's size: grows over the first 30% of its life, then shrinks to 70% by its end. */
  function CrystalSize(base: real, cp: real): (s: real)
    ensures base >= 0.0 && 0.0 <= cp <= 1.0 ==> 0.0 <= s <= base
    ensures base >= 0.0 && 0.3 <= cp <= 1.0 ==> base * 0.7 <= s
  {
    if cp < 0.3 then Share(base, Rising(cp))
    else if cp < 0.7 then
      ShareOf(base, 0.7, 1.0);
      base
    else Share(base, Shrinking(cp))
  }

  /** The edge wrap for the types that move: respawn at the top past the bottom margin, wrap x, and lift a rising particle past the top. */
  function WrapEdges(p: ParticleState, w: real, h: real, wrapX: real): (r: ParticleState)
    ensures r.(x := p.x, y := p.y) == p
    ensures p.size >= 0.0 && w >= 0.0 ==> -(p.size * 2.0) <= r.x <= w + p.size * 2.0
    ensures p.size >= 0.0 && h >= 0.0 ==> r.y <= h + p.size * 2.0
    ensures p.y > h + p.size * 2.0 ==> r.y == -(p.size * 2.0)
  {
    var margin := p.size * 2.0;
    var p1 := if p.y > h + margin then p.(y := -margin, x := wrapX * w) else p;
    var p2 := if p1.x > w + margin then p1.(x := -margin)
              else if p1.x < -margin then p1.(x := w + margin)
              else p1;
    if p2.y < -margin && p2.vy < 0.0 then p2.(y := h + margin) else p2
  }

  /** The end of a looping type's life: life restarts, and a sparkle jumps to a new place. */
  function Loop(p: ParticleState, w: real, h: real, resetX: real, resetY: real): (r: ParticleState)
    ensures !(Looping(KindOf(p.ptype)) && p.life > p.maxLife) ==> r == p
    ensures Looping(KindOf(p.ptype)) && p.life > p.maxLife ==> r.life == 0.0
    ensures r.(x := p.x, y := p.y, life := p.life) == p
    ensures KindOf(p.ptype) != Sparkle ==> r.x == p.x && r.y == p.y
  {
    var k := KindOf(p.ptype);
    if Looping(k) && p.life > p.maxLife then
      if k == Sparkle then p.(life := 0.0, x := resetX * w, y := resetY * h)
      else p.(life := 0.0)
    else p
  }

  /** heightFactor: 1 + (1 - y / canvasH) * 0.3. */
  function HeightFactor(y: real, h: real): real
    requires h != 0.0
  {
    1.0 + (1.0 - y / h) * 0.3
  }

  /** The particle after updateParticle(p, wind, dt, canvasW, canvasH). */
  function Updated(p: ParticleState, wind: Wind, dt: real, w: real, h: real, sin: real -> real, d: UpdateDraws)
    : (r: ParticleState)
    requires h != 0.0 && p.maxLife != 0.0
    ensures r.maxLife == p.maxLife && r.baseSize == p.baseSize && r.baseOpacity == p.baseOpacity
    ensures r.ptype == p.ptype && r.depth == p.depth && r.color == p.color && r.phase == p.phase
  {
    var moved := Motion(p.(life := p.life + dt), wind, dt, HeightFactor(p.y, h), sin, d.flash);
    var wrapped := if Fixed(KindOf(p.ptype)) then moved else WrapEdges(moved, w, h, d.wrapX);
    Loop(wrapped, w, h, d.resetX, d.resetY)
  }

  /** The flag updateParticle returns: false exactly for a crystal or gold particle past its life. */
  predicate Alive(p: ParticleState, dt: real)
  {
    !(Ephemeral(KindOf(p.ptype)) && p.life + dt > p.maxLife)
  }

  // ---------------------------------------------------------------------
  // Lifecycle properties
  // ---------------------------------------------------------------------

  /** Every frame adds dt to a particle's life, except that a looping type past its life restarts at 0. */
  lemma LifeAdvances(p: ParticleState, wind: Wind, dt: real, w: real, h: real, sin: real -> real, d: UpdateDraws)
    requires h != 0.0 && p.maxLife != 0.0
    ensures var r := Updated(p, wind, dt, w, h, sin, d);
            if Looping(KindOf(p.ptype)) && p.life + dt > p.maxLife then r.life == 0.0 else r.life == p.life + dt
  {
  }

  /** Only a crystal or gold particle past its life is retired; a looping one never is. */
  lemma OnlyEphemeralDie(p: ParticleState, dt: real)
    ensures Looping(KindOf(p.ptype)) ==> Alive(p, dt)
    ensures !Alive(p, dt) <==> (p.ptype == "crystal" || p.ptype == "gold") && p.life + dt > p.maxLife
  {
  }

  /**
   * A star never moves; a crystal never moves; a sparkle moves only when its
   * cycle ends, and then to the reset draws' place on the canvas.
   */
  lemma FixedTypesStay(p: ParticleState, wind: Wind, dt: real, w: real, h: real, sin: real -> real, d: UpdateDraws)
    requires h != 0.0 && p.maxLife != 0.0 && Fixed(KindOf(p.ptype))
    ensures var r := Updated(p, wind, dt, w, h, sin, d);
            if KindOf(p.ptype) == Sparkle && p.life + dt > p.maxLife then r.x == d.resetX * w && r.y == d.resetY * h
            else r.x == p.x && r.y == p.y
  {
  }

  /** A particle of a moving type ends the frame within two sizes of the canvas sideways and not below the bottom margin. */
  lemma WrapBounds(p: ParticleState, wind: Wind, dt: real, w: real, h: real, sin: real -> real, d: UpdateDraws)
    requires h > 0.0 && w >= 0.0 && p.maxLife != 0.0 && !Fixed(KindOf(p.ptype))
    ensures var r := Updated(p, wind, dt, w, h, sin, d);
            r.size >= 0.0 ==> -(r.size * 2.0) <= r.x <= w + r.size * 2.0 && r.y <= h + r.size * 2.0
  {
  }

  /** A rain drop keeps its fall speed and its rotation. */
  lemma RainKeepsCourse(p: ParticleState, wind: Wind, dt: real, w: real, h: real, sin: real -> real, d: UpdateDraws)
    requires h != 0.0 && p.maxLife != 0.0 && p.ptype == "rain"
    ensures var r := Updated(p, wind, dt, w, h, sin, d);
            r.vy == p.vy && r.rotation == p.rotation
  {
  }

  /** A sparkle's opacity stays within [0, baseOpacity] for any non-negative life. */
  lemma SparkleEnvelope(p: ParticleState, wind: Wind, dt: real, w: real, h: real, sin: real -> real, d: UpdateDraws)
    requires h != 0.0 && p.maxLife > 0.0 && p.ptype == "sparkle" && p.life + dt >= 0.0 && p.baseOpacity >= 0.0
    ensures var r := Updated(p, wind, dt, w, h, sin, d);
            0.0 <= r.opacity <= p.baseOpacity
  {
  }

  /** While its life lasts, a crystal's opacity and size stay within their base values. */
  lemma CrystalEnvelope(p: ParticleState, wind: Wind, dt: real, w: real, h: real, sin: real -> real, d: UpdateDraws)
    requires h != 0.0 && p.maxLife > 0.0 && p.ptype == "crystal" && 0.0 <= p.life + dt <= p.maxLife
    requires p.baseOpacity >= 0.0 && p.baseSize >= 0.0
    ensures var r := Updated(p, wind, dt, w, h, sin, d);
            0.0 <= r.opacity <= p.baseOpacity && 0.0 <= r.size <= p.baseSize
  {
    DivBounds(p.life + dt, p.maxLife);
  }

  // ---------------------------------------------------------------------
  // drawParticle's culling test
  // ---------------------------------------------------------------------

  /** drawParticle draws nothing for a particle that is almost transparent or almost too small to see. */
  predicate Drawn(p: ParticleState)
  {
    !(p.opacity <= 0.01 || p.size <= 0.2)
  }

  /** A fresh sparkle or crystal is not drawn until its first update raises its opacity. */
  lemma FreshFadersHidden(t: string, w: real, h: real, config: ParticleConfig, d: CreateDraws)
    requires CreateDrawsValid(d) && (t == "sparkle" || t == "crystal")
    ensures !Drawn(CreateParticle(t, w, h, config, d))
  {
  }

  // ---------------------------------------------------------------------
  // The particle as the object updateParticle changes in place
  // ---------------------------------------------------------------------

  class Particle {
    var x: real
    var y: real
    var vx: real
    var vy: real
    var size: real
    var baseSize: real
    var opacity: real
    var baseOpacity: real
    var rotation: real
    var rotationSpeed: real
    var depth: real
    var life: real
    var maxLife: real
    var phase: real
    var color: Option<string>
    var ptype: string

    function State(): ParticleState
      reads this
    {
      ParticleState(x, y, vx, vy, size, baseSize, opacity, baseOpacity, rotation, rotationSpeed, depth,
                    life, maxLife, phase, color, ptype)
    }

    /** A particle can divide by its life span: every particle createParticle makes can. */
    predicate Valid()
      reads this
    {
      maxLife > 0.0
    }

    /** createParticle(type, canvasW, canvasH, config) as a fresh object. */
    constructor(t: string, w: real, h: real, config: ParticleConfig, d: CreateDraws)
      requires CreateDrawsValid(d)
      ensures State() == CreateParticle(t, w, h, config, d) && Valid()
    {
      var p := CreateParticle(t, w, h, config, d);
      x, y, vx, vy := p.x, p.y, p.vx, p.vy;
      size, baseSize, opacity, baseOpacity := p.size, p.baseSize, p.opacity, p.baseOpacity;
      rotation, rotationSpeed, depth := p.rotation, p.rotationSpeed, p.depth;
      life, maxLife, phase, color, ptype := p.life, p.maxLife, p.phase, p.color, p.ptype;
    }

    /**
     * The per-type switch of updateParticle: the fields it changes take the
     * values Motion gives them; the others keep theirs.
     */
    method Move(wind: Wind, dt: real, heightFactor: real, sin: real -> real, flash: real)
      requires Valid()
      modifies this
      ensures Valid()
      ensures State() == Motion(old(State()), wind, dt, heightFactor, sin, flash)
    {
      var r := Motion(State(), wind, dt, heightFactor, sin, flash);
      x, y, vx, vy := r.x, r.y, r.vx, r.vy;
      size, opacity, rotation := r.size, r.opacity, r.rotation;
    }

    /** The edge wrap, for the types that move. */
    method WrapAround(w: real, h: real, wrapX: real)
      modifies this
      ensures State() == WrapEdges(old(State()), w, h, wrapX)
    {
      var margin := size * 2.0;
      if y > h + margin {
        y := -margin;
        x := wrapX * w;
      }
      if x > w + margin {
        x := -margin;
      } else if x < -margin {
        x := w + margin;
      }
      if y < -margin && vy < 0.0 {
        y := h + margin;
      }
    }

    /** The end-of-life check for the looping types. */
    method Restart(w: real, h: real, resetX: real, resetY: real)
      modifies this
      ensures State() == Loop(old(State()), w, h, resetX, resetY)
    {
      var k := KindOf(ptype);
      if Looping(k) && life > maxLife {
        life := 0.0;
        if k == Sparkle {
          x := resetX * w;
          y := resetY * h;
        }
      }
    }

    /**
     * updateParticle(p, wind, dt, canvasW, canvasH): the particle becomes
     * Updated(old particle), and the flag says whether it is still alive.
     */
    method Update(wind: Wind, dt: real, w: real, h: real, sin: real -> real, d: UpdateDraws) returns (alive: bool)
      requires Valid() && h != 0.0
      modifies this
      ensures Valid()
      ensures State() == Updated(old(State()), wind, dt, w, h, sin, d)
      ensures alive == Alive(old(State()), dt)
    {
      ghost var p := State();
      var heightFactor := HeightFactor(y, h);
      life := life + dt;
      Move(wind, dt, heightFactor, sin, d.flash);
      ghost var moved := Motion(p.(life := p.life + dt), wind, dt, heightFactor, sin, d.flash);
      assert State() == moved;
      var k := KindOf(ptype);
      if !Fixed(k) {
        WrapAround(w, h, d.wrapX);
      }
      assert State() == if Fixed(k) then moved else WrapEdges(moved, w, h, d.wrapX);
      if Ephemeral(k) && life > maxLife {
        return false;
      }
      Restart(w, h, d.resetX, d.resetY);
      return true;
    }
  }
}

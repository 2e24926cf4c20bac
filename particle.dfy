/** The per-particle formulas of the galaxy generator: arm assignment, radial
    distance, spin, randomness offsets and colour interpolation, and what
    can be proved about the particle they produce. */
module ParticleMath {
  import opened Parameters

  /** Pi as the decimal `Math.PI` prints as. */
  const PI: real := 3.141592653589793

  /** The host's `Math.cos`, `Math.sin` and `Math.pow`, passed in. */
  datatype MathLib = MathLib(cos: real -> real, sin: real -> real, pow: (real, real) -> real)

  /** A power of a number in [0, 1) with exponent at least 1 lies in [0, 1]. */
  ghost predicate PowInUnit(lib: MathLib) {
    forall u: real, e: real :: 0.0 <= u < 1.0 && 1.0 <= e ==> 0.0 <= lib.pow(u, e) <= 1.0
  }

  /** Cosine and sine lie in [-1, 1]. */
  ghost predicate TrigInUnit(lib: MathLib) {
    (forall a: real :: -1.0 <= lib.cos(a) <= 1.0) &&
    (forall a: real :: -1.0 <= lib.sin(a) <= 1.0)
  }

  /** `rand(k)` is the value of the k-th `Math.random()` call of one generation. */
  ghost predicate UnitStream(rand: nat -> real) {
    forall k: nat :: 0.0 <= rand(k) < 1.0
  }

  /** The seven `Math.random()` draws one particle consumes, in call order: the radius, then
      magnitude and sign for X, for Y and for Z. */
  datatype Draws = Draws(
    radius: real,
    xMagnitude: real, xSign: real,
    yMagnitude: real, ySign: real,
    zMagnitude: real, zSign: real)

  predicate DrawsInUnit(d: Draws) {
    0.0 <= d.radius < 1.0 &&
    0.0 <= d.xMagnitude < 1.0 && 0.0 <= d.xSign < 1.0 &&
    0.0 <= d.yMagnitude < 1.0 && 0.0 <= d.ySign < 1.0 &&
    0.0 <= d.zMagnitude < 1.0 && 0.0 <= d.zSign < 1.0
  }

  /** The value of the k-th `Math.random()` call. */
  function Draw(rand: nat -> real, k: nat): real {
    rand(k)
  }

  /** The draws of particle `i`: calls `7i` to `7i + 6` of the stream. */
  function DrawsAt(rand: nat -> real, i: nat): Draws {
    var k := 7 * i;
    Draws(Draw(rand, k), Draw(rand, k + 1), Draw(rand, k + 2), Draw(rand, k + 3),
          Draw(rand, k + 4), Draw(rand, k + 5), Draw(rand, k + 6))
  }

  lemma DrawsAtInUnit(rand: nat -> real, i: nat)
    requires UnitStream(rand)
    ensures DrawsInUnit(DrawsAt(rand, i))
  {
  }

  /** The spiral arm of particle `i`, chosen by index, never by a draw. */
  function BranchIndex(i: nat, branches: int): (k: nat)
    requires branches > 0
    ensures k < branches
  {
    i % branches
  }

  /** The arm's angle: arms are spaced evenly over a full turn. */
  function BranchAngle(i: nat, branches: int): real
    requires branches > 0
  {
    2.0 * PI * (BranchIndex(i, branches) as real) / (branches as real)
  }

  lemma BranchAngleInTurn(i: nat, branches: int)
    requires branches > 0
    ensures 0.0 <= BranchAngle(i, branches) < 2.0 * PI
  {
    var k := BranchIndex(i, branches) as real;
    var b := branches as real;
    assert k / b < 1.0;
    assert BranchAngle(i, branches) == 2.0 * PI * (k / b);
  }

  lemma {:induction false} MulAtLeast(k: int, b: int)
    requires k >= 1 && b > 0
    ensures k * b >= b
  {
    if k > 1 {
      MulAtLeast(k - 1, b);
      assert k * b == (k - 1) * b + b;
    }
  }

  /** The remainder is the unique `r` in [0, b) with `x == q * b + r`. */
  lemma ModUnique(x: int, b: int, q: int, r: int)
    requires b > 0 && 0 <= r < b && x == q * b + r
    ensures x % b == r
  {
    var q', r' := x / b, x % b;
    assert x == q' * b + r';
    assert (q - q') * b == r' - r;
    if q > q' {
      MulAtLeast(q - q', b);
    } else if q < q' {
      MulAtLeast(q' - q, b);
    }
  }

  /** Particles a whole number of `branches` indices apart sit on the same arm. */
  lemma BranchAnglePeriodic(i: nat, k: nat, branches: int)
    requires branches > 0
    ensures BranchIndex(i + k * branches, branches) == BranchIndex(i, branches)
    ensures BranchAngle(i + k * branches, branches) == BranchAngle(i, branches)
  {
    ModUnique(i + k * branches, branches, i / branches + k, i % branches);
  }

  /** `+1` for a draw below one half, `-1` otherwise. */
  function SignFactor(u: real): real {
    if u < 0.5 then 1.0 else -1.0
  }

  /** The sign is +1 exactly for draws below one half and -1 exactly for the rest. */
  lemma SignFactorIsUnit(u: real)
    ensures SignFactor(u) == 1.0 <==> u < 0.5
    ensures SignFactor(u) == -1.0 <==> u >= 0.5
  {
  }

  /** One axis's random offset: a draw raised to the randomness power, with a
      random sign, scaled by the randomness and the particle's radius. */
  function Offset(lib: MathLib, power: real, randomness: real, radius: real, magnitude: real, sign: real): real {
    lib.pow(magnitude, power) * SignFactor(sign) * randomness * radius
  }

  /** With no randomness, or at the centre, an offset is zero. */
  lemma OffsetVanishes(lib: MathLib, power: real, randomness: real, radius: real, magnitude: real, sign: real)
    requires randomness == 0.0 || radius == 0.0
    ensures Offset(lib, power, randomness, radius, magnitude, sign) == 0.0
  {
  }

  lemma MulNonneg(x: real, y: real)
    requires x >= 0.0 && y >= 0.0
    ensures x * y >= 0.0
  {
  }

  lemma ScaleWithin(c: real, m: real, x: real)
    requires -m <= c <= m && x >= 0.0
    ensures -(m * x) <= c * x <= m * x
  {
    MulNonneg(m - c, x);
    MulNonneg(m + c, x);
  }

  /** An offset is never larger than the randomness times the radius. */
  lemma OffsetBounded(lib: MathLib, power: real, randomness: real, radius: real, magnitude: real, sign: real)
    requires PowInUnit(lib)
    requires 1.0 <= power && 0.0 <= magnitude < 1.0
    requires 0.0 <= randomness && 0.0 <= radius
    ensures -(randomness * radius) <= Offset(lib, power, randomness, radius, magnitude, sign) <= randomness * radius
  {
    var c := lib.pow(magnitude, power) * SignFactor(sign);
    SignFactorIsUnit(sign);
    assert -1.0 <= c <= 1.0;
    ScaleWithin(c, 1.0, randomness);
    ScaleWithin(c * randomness, randomness, radius);
  }

  /** Componentwise linear interpolation, as `Color.lerp` does it. */
  function Lerp(from: Color, to: Color, t: real): Color {
    Color(
      from.r + (to.r - from.r) * t,
      from.g + (to.g - from.g) * t,
      from.b + (to.b - from.b) * t)
  }

  /** Factor 0 gives the start colour and factor 1 the end colour. */
  lemma LerpEndpoints(from: Color, to: Color)
    ensures Lerp(from, to, 0.0) == from
    ensures Lerp(from, to, 1.0) == to
  {
  }

  predicate Between(a: real, b: real, x: real) {
    (a <= x <= b) || (b <= x <= a)
  }

  lemma LerpChannelBetween(a: real, b: real, t: real)
    requires 0.0 <= t <= 1.0
    ensures Between(a, b, a + (b - a) * t)
  {
    if a <= b {
      MulNonneg(b - a, t);
      MulNonneg(b - a, 1.0 - t);
    } else {
      MulNonneg(a - b, t);
      MulNonneg(a - b, 1.0 - t);
    }
  }

  /** For a factor in [0, 1] each channel lies between the two endpoint
      channels, so a colour between two valid colours is valid. */
  lemma LerpBetween(from: Color, to: Color, t: real)
    requires 0.0 <= t <= 1.0
    ensures Between(from.r, to.r, Lerp(from, to, t).r)
    ensures Between(from.g, to.g, Lerp(from, to, t).g)
    ensures Between(from.b, to.b, Lerp(from, to, t).b)
    ensures ValidColor(from) && ValidColor(to) ==> ValidColor(Lerp(from, to, t))
  {
    LerpChannelBetween(from.r, to.r, t);
    LerpChannelBetween(from.g, to.g, t);
    LerpChannelBetween(from.b, to.b, t);
  }

  /** The position and colour written for one particle. */
  datatype Particle = Particle(x: real, y: real, z: real, color: Color)

  /** A particle's distance from the centre: the radius scaled by a draw. */
  function RadialDistance(p: Params, u: real): real {
    p.radius * u
  }

  /** The extra rotation of a particle at distance `radius`. */
  function SpinAngle(p: Params, radius: real): real {
    p.spin * radius
  }

  /** The particle's angle: its arm's angle plus its spin angle. */
  function ParticleAngle(p: Params, i: nat, d: Draws): real
    requires ValidParams(p)
  {
    BranchAngle(i, p.branches) + SpinAngle(p, RadialDistance(p, d.radius))
  }

  /** The point at `angle` and distance `radius` on the plane y = 0. */
  function ArmX(lib: MathLib, angle: real, radius: real): real {
    lib.cos(angle) * radius
  }

  function ArmZ(lib: MathLib, angle: real, radius: real): real {
    lib.sin(angle) * radius
  }

  /** Particle `i` as computed from the parameters and its seven draws. */
  function ParticleAt(p: Params, lib: MathLib, d: Draws, i: nat): Particle
    requires ValidParams(p)
  {
    var radius := RadialDistance(p, d.radius);
    var angle := ParticleAngle(p, i, d);
    var randomX := Offset(lib, p.randomnessPower, p.randomness, radius, d.xMagnitude, d.xSign);
    var randomY := Offset(lib, p.randomnessPower, p.randomness, radius, d.yMagnitude, d.ySign);
    var randomZ := Offset(lib, p.randomnessPower, p.randomness, radius, d.zMagnitude, d.zSign);
    Particle(
      ArmX(lib, angle, radius) + randomX,
      randomY,
      ArmZ(lib, angle, radius) + randomZ,
      Lerp(p.insideColor, p.outsideColor, radius / p.radius))
  }

  /** The interpolation factor `radius_i / radius` is the radius draw itself. */
  lemma ColorFactorIsRadiusDraw(p: Params, u: real)
    requires ValidParams(p)
    ensures RadialDistance(p, u) / p.radius == u
  {
    assert RadialDistance(p, u) == u * p.radius;
  }

  /** The colour is the interpolation at the radius draw; a particle at the
      centre has the inside colour; every colour is valid and lies channel by
      channel between the inside and outside colours. */
  lemma ParticleColor(p: Params, lib: MathLib, d: Draws, i: nat)
    requires ValidParams(p) && 0.0 <= d.radius < 1.0
    ensures ParticleAt(p, lib, d, i).color == Lerp(p.insideColor, p.outsideColor, d.radius)
    ensures d.radius == 0.0 ==> ParticleAt(p, lib, d, i).color == p.insideColor
    ensures ValidColor(ParticleAt(p, lib, d, i).color)
    ensures Between(p.insideColor.r, p.outsideColor.r, ParticleAt(p, lib, d, i).color.r)
    ensures Between(p.insideColor.g, p.outsideColor.g, ParticleAt(p, lib, d, i).color.g)
    ensures Between(p.insideColor.b, p.outsideColor.b, ParticleAt(p, lib, d, i).color.b)
  {
    ColorFactorIsRadiusDraw(p, d.radius);
    LerpBetween(p.insideColor, p.outsideColor, d.radius);
    LerpEndpoints(p.insideColor, p.outsideColor);
  }

  /** The vertical coordinate is the Y offset alone; with no randomness every
      offset vanishes and the particle lies on its arm in the plane. */
  lemma NoRandomnessIsFlat(p: Params, lib: MathLib, d: Draws, i: nat)
    requires ValidParams(p)
    ensures ParticleAt(p, lib, d, i).y
      == Offset(lib, p.randomnessPower, p.randomness, RadialDistance(p, d.radius), d.yMagnitude, d.ySign)
    ensures p.randomness == 0.0 ==> ParticleAt(p, lib, d, i).y == 0.0
    ensures p.randomness == 0.0 ==>
      ParticleAt(p, lib, d, i).x == lib.cos(ParticleAngle(p, i, d)) * RadialDistance(p, d.radius)
    ensures p.randomness == 0.0 ==>
      ParticleAt(p, lib, d, i).z == lib.sin(ParticleAngle(p, i, d)) * RadialDistance(p, d.radius)
  {
    if p.randomness == 0.0 {
      var r := RadialDistance(p, d.radius);
      OffsetVanishes(lib, p.randomnessPower, p.randomness, r, d.xMagnitude, d.xSign);
      OffsetVanishes(lib, p.randomnessPower, p.randomness, r, d.yMagnitude, d.ySign);
      OffsetVanishes(lib, p.randomnessPower, p.randomness, r, d.zMagnitude, d.zSign);
    }
  }

  /** A coordinate made of a unit factor times a distance at most `bound`,
      plus an offset at most `w` times that distance, is at most
      `bound * (1 + w)` in magnitude. */
  lemma CoordinateBound(c: real, r: real, o: real, w: real, bound: real)
    requires -1.0 <= c <= 1.0 && 0.0 <= r <= bound && 0.0 <= w
    requires -(w * r) <= o <= w * r
    ensures -(bound * (1.0 + w)) <= c * r + o <= bound * (1.0 + w)
  {
    var cr, wr, wb := c * r, w * r, w * bound;
    MulNonneg(1.0 - c, r);
    MulNonneg(1.0 + c, r);
    assert (1.0 - c) * r == r - cr;
    assert (1.0 + c) * r == r + cr;
    MulNonneg(w, bound - r);
    assert w * (bound - r) == wb - wr;
    assert wr <= wb;
    assert bound * (1.0 + w) == bound + wb;
  }

  lemma ScaledDrawBelow(bound: real, u: real)
    requires bound > 0.0 && 0.0 <= u < 1.0
    ensures 0.0 <= bound * u < bound
  {
    MulNonneg(bound, u);
    assert bound * (1.0 - u) > 0.0;
    assert bound * (1.0 - u) == bound - bound * u;
  }

  /** The radial distance lies in [0, radius). */
  lemma RadialDistanceInRange(p: Params, u: real)
    requires ValidParams(p) && 0.0 <= u < 1.0
    ensures 0.0 <= RadialDistance(p, u) < p.radius
  {
    ScaledDrawBelow(p.radius, u);
    assert RadialDistance(p, u) == p.radius * u;
  }

  /** The x coordinate is bounded by the radius times one plus the randomness. */
  lemma ParticleXBound(p: Params, lib: MathLib, d: Draws, i: nat)
    requires ValidParams(p) && DrawsInUnit(d)
    requires PowInUnit(lib) && TrigInUnit(lib)
    ensures -(p.radius * (1.0 + p.randomness)) <= ParticleAt(p, lib, d, i).x <= p.radius * (1.0 + p.randomness)
  {
    var r := RadialDistance(p, d.radius);
    var a := ParticleAngle(p, i, d);
    var o := Offset(lib, p.randomnessPower, p.randomness, r, d.xMagnitude, d.xSign);
    RadialDistanceInRange(p, d.radius);
    OffsetBounded(lib, p.randomnessPower, p.randomness, r, d.xMagnitude, d.xSign);
    CoordinateBound(lib.cos(a), r, o, p.randomness, p.radius);
    assert ParticleAt(p, lib, d, i).x == lib.cos(a) * r + o;
  }

  /** The z coordinate is bounded like the x coordinate. */
  lemma ParticleZBound(p: Params, lib: MathLib, d: Draws, i: nat)
    requires ValidParams(p) && DrawsInUnit(d)
    requires PowInUnit(lib) && TrigInUnit(lib)
    ensures -(p.radius * (1.0 + p.randomness)) <= ParticleAt(p, lib, d, i).z <= p.radius * (1.0 + p.randomness)
  {
    var r := RadialDistance(p, d.radius);
    var a := ParticleAngle(p, i, d);
    var o := Offset(lib, p.randomnessPower, p.randomness, r, d.zMagnitude, d.zSign);
    RadialDistanceInRange(p, d.radius);
    OffsetBounded(lib, p.randomnessPower, p.randomness, r, d.zMagnitude, d.zSign);
    CoordinateBound(lib.sin(a), r, o, p.randomness, p.radius);
    assert ParticleAt(p, lib, d, i).z == lib.sin(a) * r + o;
  }

  /** The vertical coordinate is bounded by the radius times the randomness. */
  lemma ParticleVerticalBound(p: Params, lib: MathLib, d: Draws, i: nat)
    requires ValidParams(p) && DrawsInUnit(d)
    requires PowInUnit(lib)
    ensures -(p.radius * p.randomness) <= ParticleAt(p, lib, d, i).y <= p.radius * p.randomness
  {
    var r := RadialDistance(p, d.radius);
    var w := p.randomness;
    RadialDistanceInRange(p, d.radius);
    OffsetBounded(lib, p.randomnessPower, w, r, d.yMagnitude, d.ySign);
    MulNonneg(w, p.radius - r);
    assert w * (p.radius - r) == w * p.radius - w * r;
  }

  /** Particle `i` depends on calls `7i` to `7i + 6` of the stream and on no other. */
  lemma ParticleUsesOwnDraws(p: Params, lib: MathLib, rand1: nat -> real, rand2: nat -> real, i: nat)
    requires ValidParams(p)
    requires forall k: nat :: 7 * i <= k < 7 * (i + 1) ==> rand1(k) == rand2(k)
    ensures ParticleAt(p, lib, DrawsAt(rand1, i), i) == ParticleAt(p, lib, DrawsAt(rand2, i), i)
  {
  }
}

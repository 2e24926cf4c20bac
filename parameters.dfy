/** The inputs of one galaxy generation (the `guiParams` object of the
    application) and the bounds that its control panel puts on them. */
module Parameters {

  /** An RGB colour with one real per channel; three.js keeps each channel in [0, 1]. */
  datatype Color = Color(r: real, g: real, b: real)

  predicate ValidChannel(x: real) {
    0.0 <= x <= 1.0
  }

  predicate ValidColor(c: Color) {
    ValidChannel(c.r) && ValidChannel(c.g) && ValidChannel(c.b)
  }

  /** The colour whose channels are the three bytes of a `#rrggbb` string, scaled to [0, 1]. */
  function ColorFromBytes(r: nat, g: nat, b: nat): (c: Color)
    requires r < 256 && g < 256 && b < 256
    ensures ValidColor(c)
    ensures c.r * 255.0 == r as real && c.g * 255.0 == g as real && c.b * 255.0 == b as real
  {
    Color(r as real / 255.0, g as real / 255.0, b as real / 255.0)
  }

  /** Every field the generator reads. */
  datatype Params = Params(
    particleCount: int,
    particleSize: real,
    branches: int,
    radius: real,
    spin: real,
    randomness: real,
    randomnessPower: real,
    insideColor: Color,
    outsideColor: Color)

  // The panel's min/max bounds, one pair per numeric field.
  const MinParticleCount: int := 100
  const MaxParticleCount: int := 300000
  const MinParticleSize: real := 0.001
  const MaxParticleSize: real := 0.1
  const MinBranches: int := 3
  const MaxBranches: int := 30
  const MinRadius: real := 0.1
  const MaxRadius: real := 100.0
  const MinSpin: real := -5.0
  const MaxSpin: real := 5.0
  const MinRandomness: real := 0.0
  const MaxRandomness: real := 2.0
  const MinRandomnessPower: real := 1.0
  const MaxRandomnessPower: real := 10.0

  /** The parameter values the panel can produce: each numeric field within
      its bounds, both colours with channels in [0, 1]. */
  predicate ValidParams(p: Params) {
    MinParticleCount <= p.particleCount <= MaxParticleCount &&
    MinParticleSize <= p.particleSize <= MaxParticleSize &&
    MinBranches <= p.branches <= MaxBranches &&
    MinRadius <= p.radius <= MaxRadius &&
    MinSpin <= p.spin <= MaxSpin &&
    MinRandomness <= p.randomness <= MaxRandomness &&
    MinRandomnessPower <= p.randomnessPower <= MaxRandomnessPower &&
    ValidColor(p.insideColor) && ValidColor(p.outsideColor)
  }

  /** The values the application starts with (`#ff6030` inside, `#1b3984` outside). */
  function DefaultParams(): (p: Params)
    ensures ValidParams(p)
  {
    Params(
      particleCount := 5000,
      particleSize := 0.005,
      branches := 3,
      radius := 2.0,
      spin := 1.0,
      randomness := 1.0,
      randomnessPower := 3.0,
      insideColor := ColorFromBytes(0xff, 0x60, 0x30),
      outsideColor := ColorFromBytes(0x1b, 0x39, 0x84))
  }
}

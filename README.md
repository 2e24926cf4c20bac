# Galaxy generator model

A Dafny model of `generateGalaxy`, the routine that builds the spiral galaxy
point cloud in `src/script.js`. It has two parts:

- **Buffer fill.** Two flat buffers are allocated, `positions` and
  `colors`, each `3 * particleCount` long. A loop then
  writes three slots per particle into each. Particle `i`:
  - is placed on arm `i % branches`;
  - is given a radius `radius * u`, where `u` is a draw;
  - is turned by a spin angle `spin * radius_i`;
  - is pushed off its arm by three signed offsets of the form
    `pow(u, randomnessPower) * (±1) * randomness * radius_i`;
  - is coloured by interpolating from `insideColor` to `outsideColor` by
    `radius_i / radius`.
- **Replacement lifecycle.** The application keeps the last `geometry`,
  `material` and `points` in module variables. When a previous `points`
  exists, each call disposes its geometry, then its material, and then
  removes it from the scene. Only after that does it build the new three
  and add the new `points`.

Files:

- `parameters.dfy` (module `Parameters`): the parameter record, the bounds
  the control panel puts on each field, and the start-up values.
- `particle.dfy` (module `ParticleMath`): the per-particle formulas as pure
  functions, and lemmas about the particle they produce.
- `scene.dfy` (module `SceneGraph`): the three.js objects as classes with
  `disposed` flags, and one regeneration's scene changes as a list of
  events.
- `generator.dfy` (module `GalaxyGenerator`): two parts.
  - The loop over two `array<real>` buffers.
  - The `Galaxy` class, which holds the scene, the three module variables
    and a ghost log of everything generated.

The host's `Math.cos`, `Math.sin` and `Math.pow` are passed in as a
`MathLib` value. The lemmas that need facts about them assume only
`PowInUnit` and `TrigInUnit`. The k-th `Math.random()` call of one
generation is passed in as `rand(k)`; lemmas that need draws in [0, 1)
require `UnitStream`.

JavaScript evaluates operands left to right. So particle `i` consumes calls
`7i` to `7i + 6`, in this order: the radius; the X magnitude and sign; the Y
magnitude and sign; the Z magnitude and sign (`DrawsAt`).

The control panel bounds each numeric field, but `generateGalaxy` never
checks them. The model therefore states them as the precondition
`ValidParams`, with no error result. A fail-fast rejection of out-of-range
parameters, with the previous object left displayed, is not in the code
and is not modelled.

## Model

| member | source | states |
|---|---|---|
| Parameters.ValidParams | src/script.js:29-75 | The min/max bound the control panel puts on each numeric field, as a predicate. It is a definition with no ensures; `DefaultParams` and every particle lemma are stated under it. |
| Parameters.DefaultParams | src/script.js:19-27 | The start-up values, including the colours `#ff6030` and `#1b3984`, lie within every panel bound. |
| Parameters.ColorFromBytes | src/script.js:77-78 | A `#rrggbb` colour has channels byte/255, each in [0, 1]. |
| ParticleMath.DrawsAt | src/script.js:108-124 | The seven draws of particle `i` are calls `7i` to `7i + 6`, in the order radius, X magnitude, X sign, Y magnitude, Y sign, Z magnitude, Z sign. It is a definition with no ensures; `DrawsAtInUnit` and `ParticleUsesOwnDraws` are about it. |
| ParticleMath.DrawsAtInUnit | src/script.js:108-124 | When every call of the stream lies in [0, 1), so do all seven draws of each particle. |
| ParticleMath.ParticleUsesOwnDraws | src/script.js:108-126 | Particle `i` is fully determined by calls `7i` to `7i + 6`: two streams that agree there give the same particle. |
| ParticleMath.BranchIndex | src/script.js:106-107 | The arm index lies in [0, branches) and depends on the particle index alone. |
| ParticleMath.BranchAngle | src/script.js:106-107 | The arm angle `2π · (i % branches) / branches`. It is a definition with no ensures; `BranchAngleInTurn` and `BranchAnglePeriodic` are about it. |
| ParticleMath.BranchAngleInTurn | src/script.js:106-107 | The arm angle lies in [0, 2π). |
| ParticleMath.BranchAnglePeriodic | src/script.js:106-107 | Particles `i` and `i + k * branches` get the same arm index and the same arm angle. |
| ParticleMath.SignFactor | src/script.js:114 | +1 for a draw below one half, -1 otherwise. It is a definition with no ensures; `SignFactorIsUnit` is about it. |
| ParticleMath.SignFactorIsUnit | src/script.js:114 | The sign factor is +1 exactly when the draw is below one half and -1 exactly otherwise. |
| ParticleMath.Offset | src/script.js:112-126 | One randomness offset: `pow(magnitude, randomnessPower) · sign · randomness · radius_i`. It is a definition with no ensures; `OffsetVanishes` and `OffsetBounded` are about it. |
| ParticleMath.OffsetVanishes | src/script.js:112-116 | With no randomness, or at the centre, the offset is 0. |
| ParticleMath.OffsetBounded | src/script.js:112-126 | If `pow` maps [0, 1) to [0, 1] for exponents of at least 1, then every offset lies within ±(randomness × radius_i). |
| ParticleMath.Lerp | src/script.js:132-133 | `Color.lerp`: each channel moves from the start colour toward the end colour by the factor. It is a definition with no ensures; `LerpEndpoints` and `LerpBetween` are about it. |
| ParticleMath.LerpEndpoints | src/script.js:132-133 | Factor 0 gives the start colour and factor 1 gives the end colour. |
| ParticleMath.LerpBetween | src/script.js:132-133 | For a factor in [0, 1], each channel lies between the two endpoint channels, and the colour is valid when both endpoints are. |
| ParticleMath.RadialDistance | src/script.js:108 | The particle's distance `radius · u` from the centre. It is a definition with no ensures; `RadialDistanceInRange` and `ColorFactorIsRadiusDraw` are about it. |
| ParticleMath.SpinAngle | src/script.js:109 | The spin angle `spin · radius_i`. It is a definition with no ensures; it enters every particle lemma through `ParticleAngle`. |
| ParticleMath.ParticleAngle | src/script.js:128-130 | The angle `branchAngle + spinAngle` that both horizontal coordinates use. It is a definition with no ensures; `NoRandomnessIsFlat` is stated with it. |
| ParticleMath.ArmX | src/script.js:128 | The point on the arm along x, `cos(angle) · radius_i`, before the X offset. It is a definition with no ensures; `ParticleXBound` bounds it. |
| ParticleMath.ArmZ | src/script.js:130 | The point on the arm along z, `sin(angle) · radius_i`, before the Z offset. It is a definition with no ensures; `ParticleZBound` bounds it. |
| ParticleMath.ParticleAt | src/script.js:104-137 | One iteration of the loop body: the position and colour of particle `i` from its draws. It is a definition with no ensures; `ParticleColor`, `NoRandomnessIsFlat`, the three bound lemmas and `ParticleUsesOwnDraws` are about it. |
| ParticleMath.ColorFactorIsRadiusDraw | src/script.js:133 | The factor `radius_i / radius` equals the radius draw. |
| ParticleMath.ParticleColor | src/script.js:132-137 | The stored colour is the interpolation at the radius draw. A particle at the centre has the inside colour. Every colour is valid and lies between the inside and outside colours channel by channel. |
| ParticleMath.NoRandomnessIsFlat | src/script.js:112-130 | For any parameters, y is the Y offset alone. With randomness 0, y = 0, x = cos(angle)·radius_i and z = sin(angle)·radius_i. |
| ParticleMath.ParticleXBound | src/script.js:128 | \|x\| ≤ radius × (1 + randomness). |
| ParticleMath.ParticleZBound | src/script.js:130 | \|z\| ≤ radius × (1 + randomness). |
| ParticleMath.ParticleVerticalBound | src/script.js:129 | \|y\| ≤ radius × randomness. |
| SceneGraph.Apply | src/script.js:89-154 | One event's effect on the scene: a remove takes the object out (`scene.remove`), an add puts it in (`scene.add`), and a dispose leaves the scene alone. It is a definition with no ensures; `ReplaySwap` and `SwapKeepsAtMostOneLive` are about it. |
| SceneGraph.Replay | src/script.js:89-154 | The scene after a list of events, applied in order. It is a definition with no ensures; `ReplayAppend`, `ReplaySwap` and `Galaxy.Generate` are about it. |
| SceneGraph.Geometry.constructor | src/script.js:96 | A new geometry holds the two buffers and is not disposed. |
| SceneGraph.Geometry.Dispose | src/script.js:90 | Afterwards the geometry is disposed. |
| SceneGraph.Material.constructor | src/script.js:144-150 | A new material has the given point size and is not disposed. |
| SceneGraph.Material.Dispose | src/script.js:91 | Afterwards the material is disposed. |
| SceneGraph.Points.constructor | src/script.js:153 | A new points object wraps the given geometry and material. |
| SceneGraph.Retire | src/script.js:89-93 | The clean-up events: none without a previous object; otherwise three, with no add among them. |
| SceneGraph.SwapEvents | src/script.js:89-154 | A regeneration's events: the clean-up, then the add of the new object, which is the last event and the only add. |
| SceneGraph.ReplaySwap | src/script.js:89-154 | The net effect on the scene is that the previous object leaves, the new one joins, and nothing else changes. |
| SceneGraph.SwapKeepsAtMostOneLive | src/script.js:89-154 | Suppose at most the previous object was live and the new one was not yet in the scene. Then after every prefix of the events at most one generated object is live, and at the end exactly the new one is. |
| GalaxyGenerator.StoredAt | src/script.js:128-137 | The flat layout, three slots per particle: slots `3j` to `3j + 2` of `positions` are x, y and z, and the same slots of `colors` are r, g and b. It is a definition with no ensures; `FillWith`, `FillBuffers` and `Generate` state their results through it. |
| GalaxyGenerator.StoreParticle | src/script.js:128-137 | Slots 3i to 3i+2 of the two buffers receive x, y, z and r, g, b, and are reported as the slots written. Every slot not reported is unchanged. |
| GalaxyGenerator.FillWith | src/script.js:97-138 | The loop over `0 <= i < n`: both buffers are fresh and `3 * n` long, the two buffers are distinct, and particle `j` reads back from slots `3j` to `3j + 2` as the one computed for index `j`. The ghost log of slots, built only from what `StoreParticle` reports writing, is `0, 1, …, 3n - 1`: each slot is written once, in order. |
| GalaxyGenerator.FillBuffers | src/script.js:96-138 | Both buffers are distinct and `3 * particleCount` long, and particle `j` reads back as the one its own draws `7j` to `7j + 6` determine. The slot log is `0, 1, …, 3 * particleCount - 1`, so each slot is written once, in order. |
| GalaxyGenerator.Galaxy.constructor | src/script.js:83-85 | Before the first generation, all three variables are null, nothing has been generated, and the state is valid. |
| GalaxyGenerator.Galaxy.DisposePrevious | src/script.js:89-93 | A previous object has both parts disposed and is out of the scene. Afterwards every generated object is retired and the variables are unchanged. |
| GalaxyGenerator.Galaxy.Install | src/script.js:140-154 | New geometry, material and points wrap the buffers and the point size. The new points object joins the scene, and the state is valid again. |
| GalaxyGenerator.Galaxy.Generate | src/script.js:87-155 | The previous object's parts are disposed and it leaves the scene. The scene and the event log change by exactly the swap events. The new object is the only generated object in the scene. The buffers are distinct, `3 * particleCount` long, and hold the particles the draws determine. The material has the point size. `Valid()` is kept. |
| GalaxyGenerator.RegenerateTwice | src/script.js:87-155 | After two regenerations the second object is the only generated object in the scene, and the first is out of it with both parts disposed. |

## Left out

- Rendering, camera, orbit controls, window resizing and the animation loop: these are plumbing over three.js and the DOM.
- The control panel widgets and their change callbacks. Only their min/max bounds carry over, as `ValidParams`.
- The `step` of each control, which rounds edited values, is also not modelled.
- Parsing a colour string and any colour-space conversion three.js applies: colours are RGB triples of reals. `ColorFromBytes` only gives the two start-up colours.
- The zero fill of a new `Float32Array`: the model's buffers start with unspecified contents, and every slot is written before it is read.
- Floating point: coordinates and channels are reals, so `Float32Array` rounding is not modelled.
- `Math.cos`, `Math.sin` and `Math.pow` are arbitrary injected functions; only the range facts the lemmas require are assumed.
- The statistical distribution of `Math.random()`: only the number of draws and their order are modelled.
- The `PointsMaterial` options other than `size` (attenuation, depth writing, additive blending, vertex colours) are not modelled.
- `setAttribute` and `BufferAttribute` construction are folded into the `Geometry` constructor, which the model runs after the loop. `generateGalaxy` creates the empty geometry before the loop, but nothing reads it until the attributes are set.
- The loop body's local variables (`branchAngle`, `radius`, `spinAngle`, the three offsets, `mixedColor`) are not kept as method locals: the loop, `FillWith`, calls the function that computes a whole particle, which `FillBuffers` instantiates with `ParticleAt` at the particle's own draws. The running count of `Math.random()` calls is therefore not a loop variable; `DrawsAt` fixes which calls each particle reads.
- Releasing GPU memory on `dispose` is modelled only as the `disposed` flag.

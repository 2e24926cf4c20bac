/** `generateGalaxy` and the module state it replaces on every call:
    the per-particle loop that fills the position and colour buffers, and
    the dispose / remove / build / add sequence over `geometry`, `material`
    and `points`. */
module GalaxyGenerator {
  import opened Parameters
  import opened ParticleMath
  import opened SceneGraph

  /** Particle `j` as read back from the two flat buffers, which hold three
      floats per particle: x, y, z and r, g, b. */
  function StoredAt(positions: seq<real>, colors: seq<real>, j: nat): Particle
    requires 3 * j + 2 < |positions| && 3 * j + 2 < |colors|
  {
    var s := 3 * j;
    Particle(positions[s], positions[s + 1], positions[s + 2], Color(colors[s], colors[s + 1], colors[s + 2]))
  }

  /** Slots `3j` to `3j + 2` of the two buffers hold particle `q`. */
  ghost predicate Written(positions: array<real>, colors: array<real>, j: nat, q: Particle)
    reads positions, colors
  {
    3 * j + 2 < positions.Length && 3 * j + 2 < colors.Length &&
    positions[3 * j] == q.x && positions[3 * j + 1] == q.y && positions[3 * j + 2] == q.z &&
    colors[3 * j] == q.color.r && colors[3 * j + 1] == q.color.g && colors[3 * j + 2] == q.color.b
  }

  /** Slots written with `q` read back as `q`. */
  lemma WrittenIsStored(positions: array<real>, colors: array<real>, j: nat, q: Particle)
    requires Written(positions, colors, j, q)
    ensures StoredAt(positions[..], colors[..], j) == q
  {
  }

  /** The slot list grows by three consecutive slots. */
  lemma SlotsAppend(m: nat)
    ensures seq(m + 3, s => s) == seq(m, s => s) + [m, m + 1, m + 2]
  {
  }

  /** Writes particle `q` into slots `3i` to `3i + 2` of the two buffers, x, y
      and z into `positions` and r, g and b into `colors`. `slots` lists the
      slots written, in order; no other slot changes. */
  method StoreParticle(positions: array<real>, colors: array<real>, i: nat, q: Particle)
    returns (ghost slots: seq<nat>)
    requires positions != colors
    requires 3 * i + 2 < positions.Length && 3 * i + 2 < colors.Length
    modifies positions, colors
    ensures slots == [3 * i, 3 * i + 1, 3 * i + 2]
    ensures Written(positions, colors, i, q)
    ensures forall s :: 0 <= s < positions.Length && s !in slots ==> positions[s] == old(positions[s])
    ensures forall s :: 0 <= s < colors.Length && s !in slots ==> colors[s] == old(colors[s])
  {
    var step := i * 3;
    slots := [step, step + 1, step + 2];
    positions[step] := q.x;
    positions[step + 1] := q.y;
    positions[step + 2] := q.z;
    colors[step] := q.color.r;
    colors[step + 1] := q.color.g;
    colors[step + 2] := q.color.b;
  }

  /** The per-particle loop over two new buffers of `3 * n` slots each:
      iteration `i` computes particle `i` and stores it in slots `3i` to
      `3i + 2`. Afterwards every particle read back from the buffers is the
      one computed for its index, and `written`, the slots stored to in
      order, lists every slot once. */
  method FillWith(n: nat, particle: nat -> Particle)
    returns (positions: array<real>, colors: array<real>, ghost written: seq<nat>)
    ensures fresh(positions) && fresh(colors) && positions != colors
    ensures positions.Length == 3 * n && colors.Length == 3 * n
    ensures forall j :: 0 <= j < n ==> StoredAt(positions[..], colors[..], j) == particle(j)
    ensures written == seq(3 * n, s => s)
  {
    positions := new real[3 * n];
    colors := new real[3 * n];
    written := [];
    var i := 0;
    while i < n
      invariant 0 <= i <= n
      invariant written == seq(3 * i, s => s)
      invariant forall j :: 0 <= j < i ==> Written(positions, colors, j, particle(j))
    {
      var q := particle(i);
      ghost var slots := StoreParticle(positions, colors, i, q);
      SlotsAppend(3 * i);
      written := written + slots;
      i := i + 1;
    }
    forall j | 0 <= j < n
      ensures StoredAt(positions[..], colors[..], j) == particle(j)
    {
      WrittenIsStored(positions, colors, j, particle(j));
    }
  }

  /** The buffer fill of `generateGalaxy`: particle `i` is computed from the
      parameters and draws `7i` to `7i + 6` of `rand`, so the whole fill
      reads only draws `0` to `7 * particleCount - 1`. */
  method FillBuffers(p: Params, lib: MathLib, rand: nat -> real)
    returns (positions: array<real>, colors: array<real>, ghost written: seq<nat>)
    requires ValidParams(p)
    ensures fresh(positions) && fresh(colors) && positions != colors
    ensures positions.Length == 3 * p.particleCount && colors.Length == 3 * p.particleCount
    ensures forall j :: 0 <= j < p.particleCount ==>
      StoredAt(positions[..], colors[..], j) == ParticleAt(p, lib, DrawsAt(rand, j), j)
    ensures written == seq(3 * p.particleCount, s => s)
  {
    positions, colors, written := FillWith(p.particleCount, (i: nat) => ParticleAt(p, lib, DrawsAt(rand, i), i));
  }

  /** The module-level state of the application: the scene and the last
      generated `geometry`, `material` and `points` (all null before the
      first generation). `generated` holds every `Points` ever built here and
      `events` every scene change and disposal made, in order. */
  class Galaxy {
    var scene: set<object>
    var geometry: Geometry?
    var material: Material?
    var points: Points?
    ghost var generated: set<Points>
    ghost var events: seq<Event>

    /** The geometries and materials of the generated objects. */
    ghost function Parts(objects: set<Points>): set<object> {
      (set q | q in objects :: q.geometry as object) + (set q | q in objects :: q.material as object)
    }

    /** The three variables are null together; a current object wraps the
        current geometry and material, is in the scene, and neither of its
        parts is disposed; no other generated object is in the scene, and
        the parts of every other generated object are disposed. */
    ghost predicate Valid()
      reads this, Parts(generated)
    {
      (points == null <==> geometry == null) &&
      (points == null <==> material == null) &&
      (points != null ==>
        points in generated && points in scene &&
        points.geometry == geometry && points.material == material &&
        !geometry.disposed && !material.disposed) &&
      (forall q :: q in generated && q in scene ==> q == points) &&
      (forall q :: q in generated && q != points ==> q.geometry.disposed && q.material.disposed)
    }

    /** The state before the first generation: a scene holding `contents`
        and nothing generated. */
    constructor (contents: set<object>)
      ensures Valid()
      ensures scene == contents && points == null && generated == {} && events == []
    {
      scene := contents;
      geometry, material, points := null, null, null;
      generated, events := {}, [];
    }

    /** Every generated object is out of the scene and has both parts disposed. */
    ghost predicate AllRetired()
      reads this, Parts(generated)
    {
      forall q :: q in generated ==> q !in scene && q.geometry.disposed && q.material.disposed
    }

    /** The clean-up block of `generateGalaxy`: when a previous object exists,
        dispose its geometry, dispose its material and remove it from the
        scene. The three variables keep their values. */
    method DisposePrevious()
      requires Valid()
      modifies this, geometry, material
      ensures AllRetired()
      ensures geometry == old(geometry) && material == old(material) && points == old(points)
      ensures generated == old(generated)
      ensures old(points) != null ==> geometry.disposed && material.disposed
      ensures scene == if old(points) == null then old(scene) else old(scene) - {old(points)}
      ensures events == old(events) + Retire(old(points))
    {
      if points != null {
        geometry.Dispose();
        material.Dispose();
        scene := scene - {points};
        events := events + Retire(points);
      }
    }

    /** The build block of `generateGalaxy`: wrap the filled buffers in a new
        geometry, make a new material of the given point size, wrap both in a
        new points object and add it to the scene. */
    method Install(positions: array<real>, colors: array<real>, size: real)
      requires AllRetired()
      modifies this
      ensures Valid()
      ensures fresh(points) && fresh(geometry) && fresh(material)
      ensures geometry.position == positions && geometry.color == colors && material.size == size
      ensures generated == old(generated) + {points}
      ensures scene == old(scene) + {points}
      ensures events == old(events) + [Add(points)]
    {
      geometry := new Geometry(positions, colors);
      material := new Material(size);
      points := new Points(geometry, material);
      generated := generated + {points};
      scene := scene + {points};
      events := events + [Add(points)];
    }

    /** `generateGalaxy`: dispose and remove the previous object if there is
        one, then fill new buffers and build and add new geometry, material
        and points. Afterwards the new object is the only generated object in
        the scene, the scene has changed exactly as the regeneration's events
        say, and the buffers hold the particles the draws determine. */
    method Generate(p: Params, lib: MathLib, rand: nat -> real)
      requires Valid() && ValidParams(p)
      modifies this, geometry, material
      ensures Valid()
      ensures fresh(points) && fresh(geometry) && fresh(material)
      ensures fresh(geometry.position) && fresh(geometry.color) && geometry.position != geometry.color
      ensures old(points) != null ==> old(geometry).disposed && old(material).disposed
      ensures old(points) != null ==> old(points) !in scene
      ensures events == old(events) + SwapEvents(old(points), points)
      ensures scene == Replay(old(scene), SwapEvents(old(points), points))
      ensures generated == old(generated) + {points}
      ensures forall q :: q in generated && q in scene <==> q == points
      ensures material.size == p.particleSize
      ensures geometry.position.Length == 3 * p.particleCount
      ensures geometry.color.Length == 3 * p.particleCount
      ensures forall j :: 0 <= j < p.particleCount ==>
        StoredAt(geometry.position[..], geometry.color[..], j) == ParticleAt(p, lib, DrawsAt(rand, j), j)
    {
      ghost var previous := points;
      DisposePrevious();
      var positions, colors, written := FillBuffers(p, lib, rand);
      Install(positions, colors, p.particleSize);

      assert events == old(events) + (Retire(previous) + [Add(points)]);
      SwapKeepsAtMostOneLive(old(scene), old(generated), previous, points);
      ReplaySwap(old(scene), previous, points);
    }
  }

  /** Two regenerations in a row: afterwards the second object is the only
      generated object in the scene, and the first one's parts are disposed. */
  method RegenerateTwice(g: Galaxy, p1: Params, p2: Params, lib: MathLib, rand1: nat -> real, rand2: nat -> real)
    returns (first: Points, second: Points)
    requires g.Valid() && ValidParams(p1) && ValidParams(p2)
    modifies g, g.geometry, g.material
    ensures g.Valid()
    ensures first != second && g.points == second
    ensures first !in g.scene && second in g.scene
    ensures first.geometry.disposed && first.material.disposed
    ensures forall q :: q in g.generated && q in g.scene <==> q == second
  {
    g.Generate(p1, lib, rand1);
    first := g.points;
    g.Generate(p2, lib, rand2);
    second := g.points;
  }
}

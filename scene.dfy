/** The three.js objects the generator creates, disposes and swaps in and out
    of the scene, and the scene changes a regeneration makes, as events. */
module SceneGraph {

  /** A `BufferGeometry` carrying the flat `position` and `color` attributes. */
  class Geometry {
    const position: array<real>
    const color: array<real>
    var disposed: bool

    constructor (position: array<real>, color: array<real>)
      ensures this.position == position && this.color == color
      ensures !disposed
    {
      this.position := position;
      this.color := color;
      disposed := false;
    }

    /** Releases the geometry's buffers. */
    method Dispose()
      modifies this
      ensures disposed
    {
      disposed := true;
    }
  }

  /** A `PointsMaterial`; of its options only the point size comes from the parameters. */
  class Material {
    const size: real
    var disposed: bool

    constructor (size: real)
      ensures this.size == size && !disposed
    {
      this.size := size;
      disposed := false;
    }

    method Dispose()
      modifies this
      ensures disposed
    {
      disposed := true;
    }
  }

  /** A `Points` object: the renderable that wraps one geometry and one material. */
  class Points {
    const geometry: Geometry
    const material: Material

    constructor (geometry: Geometry, material: Material)
      ensures this.geometry == geometry && this.material == material
    {
      this.geometry := geometry;
      this.material := material;
    }
  }

  /** One step of a regeneration, in the order the generator takes them. */
  datatype Event =
    | DisposeGeometry(geometry: Geometry)
    | DisposeMaterial(material: Material)
    | Remove(removed: Points)
    | Add(added: Points)

  /** The scene's members after one event; disposals leave them alone. */
  function Apply(scene: set<object>, e: Event): set<object> {
    match e
    case Remove(q) => scene - {q}
    case Add(q) => scene + {q}
    case _ => scene
  }

  /** The scene's members after a sequence of events, applied in order. */
  function Replay(scene: set<object>, events: seq<Event>): set<object>
    decreases |events|
  {
    if events == [] then scene else Replay(Apply(scene, events[0]), events[1..])
  }

  lemma {:induction false} ReplayAppend(scene: set<object>, events: seq<Event>, e: Event)
    ensures Replay(scene, events + [e]) == Apply(Replay(scene, events), e)
    decreases |events|
  {
    if events == [] {
      assert [e][1..] == [];
    } else {
      assert (events + [e])[1..] == events[1..] + [e];
      ReplayAppend(Apply(scene, events[0]), events[1..], e);
    }
  }

  /** The clean-up of a regeneration: when a previous object exists, dispose
      its geometry, dispose its material and remove it from the scene. */
  function Retire(previous: Points?): (events: seq<Event>)
    ensures |events| == if previous == null then 0 else 3
    ensures forall k :: 0 <= k < |events| ==> !events[k].Add?
  {
    if previous == null then []
    else [DisposeGeometry(previous.geometry), DisposeMaterial(previous.material), Remove(previous)]
  }

  /** The events of one regeneration: the clean-up, then adding the new object. */
  function SwapEvents(previous: Points?, next: Points): (events: seq<Event>)
    ensures |events| == if previous == null then 1 else 4
    ensures events[|events| - 1] == Add(next)
    ensures forall k :: 0 <= k < |events| - 1 ==> !events[k].Add?
  {
    Retire(previous) + [Add(next)]
  }

  /** A regeneration's net effect on the scene: the previous object, if any,
      leaves it, the new one joins it, and nothing else changes. */
  lemma ReplaySwap(scene: set<object>, previous: Points?, next: Points)
    ensures Replay(scene, SwapEvents(previous, next)) ==
      (if previous == null then scene else scene - {previous}) + {next}
  {
    var events := SwapEvents(previous, next);
    if previous == null {
      assert events == [Add(next)];
      assert Replay(scene, events) == Replay(scene + {next}, []);
    } else {
      var removed := scene - {previous};
      assert events[1..][1..][1..] == [Add(next)];
      assert Replay(removed, [Add(next)]) == removed + {next};
      assert Replay(scene, events[1..][1..]) == Replay(removed, [Add(next)]);
      assert Replay(scene, events) == Replay(scene, events[1..][1..]);
    }
  }

  /** No two distinct objects of `objects` are both in `scene`. */
  ghost predicate AtMostOneLive(scene: set<object>, objects: set<Points>) {
    forall q1, q2 :: q1 in objects && q2 in objects && q1 in scene && q2 in scene ==> q1 == q2
  }

  /** If at most the previous object of a generator was in the scene and the
      new one is not yet, then at every point of the regeneration at most one
      of the generator's objects is in the scene, and afterwards exactly the
      new one is, with every other member of the scene left as it was. */
  lemma SwapKeepsAtMostOneLive(scene: set<object>, generated: set<Points>, previous: Points?, next: Points)
    requires forall q :: q in generated && q in scene ==> q == previous
    requires previous != null ==> previous in generated
    requires next !in scene
    ensures forall k :: 0 <= k <= |SwapEvents(previous, next)| ==>
      AtMostOneLive(Replay(scene, SwapEvents(previous, next)[..k]), generated + {next})
    ensures forall q :: q in generated + {next} && q in Replay(scene, SwapEvents(previous, next)) <==> q == next
    ensures forall o: object :: o !in generated + {next} ==> (o in Replay(scene, SwapEvents(previous, next)) <==> o in scene)
  {
    var events := SwapEvents(previous, next);
    var all := generated + {next};
    // Before the Add event the new object is absent and at most `previous` is present.
    forall k | 0 <= k < |events|
      ensures Replay(scene, events[..k]) <= scene
    {
      var j := 0;
      while j < k
        invariant 0 <= j <= k
        invariant Replay(scene, events[..j]) <= scene
      {
        assert events[..j + 1] == events[..j] + [events[j]];
        ReplayAppend(scene, events[..j], events[j]);
        j := j + 1;
      }
    }
    forall k | 0 <= k <= |events|
      ensures AtMostOneLive(Replay(scene, events[..k]), all)
    {
      if k < |events| {
        assert Replay(scene, events[..k]) <= scene;
      } else {
        assert events[..k] == events[..k - 1] + [events[k - 1]];
        ReplayAppend(scene, events[..k - 1], events[k - 1]);
        var before := Replay(scene, events[..k - 1]);
        assert Replay(scene, events[..k]) == before + {next};
        if previous != null {
          assert events[..k - 1] == events[..2] + [Remove(previous)];
          ReplayAppend(scene, events[..2], Remove(previous));
          assert previous !in before;
        }
      }
    }
    assert events[..|events|] == events;
    assert events == events[..|events| - 1] + [Add(next)];
    ReplayAppend(scene, events[..|events| - 1], Add(next));
    var before := Replay(scene, events[..|events| - 1]);
    if previous != null {
      assert events[..3] == events[..2] + [Remove(previous)];
      ReplayAppend(scene, events[..2], Remove(previous));
      assert events[..2] == events[..1] + [DisposeMaterial(previous.material)];
      ReplayAppend(scene, events[..1], DisposeMaterial(previous.material));
      assert events[..1] == [] + [DisposeGeometry(previous.geometry)];
      ReplayAppend(scene, [], DisposeGeometry(previous.geometry));
      assert before == scene - {previous};
    } else {
      assert before == scene;
    }
  }
}

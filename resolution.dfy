/**
  The resolution record kept for one body while a step resolves its
  collisions: the position the body should end up at (`resolvedPosition`),
  and, once resolved, the displacement that takes the body there
  (`resolution`).
*/
module Resolution {

  import opened Geom

  /** The parts of a body a resolution reads: its rectangle, velocity and last resolution. */
  class BitBody {
    var aabb: BitRectangle
    var velocity: BitPoint
    var lastResolution: BitPoint

    constructor (aabb: BitRectangle)
      ensures this.aabb == aabb
      ensures fresh(velocity) && velocity.Value() == Origin
      ensures fresh(lastResolution) && lastResolution.Value() == Origin
    {
      this.aabb := aabb;
      velocity := new BitPoint(0.0, 0.0);
      lastResolution := new BitPoint(0.0, 0.0);
    }
  }

  /** One collision waiting to be resolved: where the bodies overlap, and the other body. */
  datatype BitCollision = BitCollision(intersection: Rect, other: BitBody)

  /**
    The resolution strategy (the engine's abstract `satisfy`): from the
    current resolved position, the body's rectangle and the pending
    collisions it chooses the position the body should be resolved to.
  */
  type Satisfier = (Rect, Rect, seq<BitCollision>) -> Rect

  class BitResolution {
    /** The pending collisions, in the order the strategy is given them. */
    var collisions: seq<BitCollision>
    var resolvedPosition: BitRectangle
    var resolution: BitPoint
    var body: BitBody
    /** When set, no further resolution is applied to the body after this one. */
    var lockingResolution: bool

    /**
      The objects a resolution writes are its own: the resolved position,
      its corner and the resolution point are none of the body's objects.
    */
    predicate Valid()
      reads this, body, body.aabb, resolvedPosition
    {
      && resolvedPosition != body.aabb
      && resolvedPosition.xy != body.aabb.xy
      && resolution != body.aabb.xy && resolution != resolvedPosition.xy
    }

    /** A new resolution starts where the body is, with nothing resolved and nothing locked. */
    constructor (body: BitBody)
      ensures Valid()
      ensures this.body == body
      ensures fresh(resolvedPosition) && fresh(resolvedPosition.xy) && fresh(resolution)
      ensures resolvedPosition.Value() == Normalize(body.aabb.xy.x, body.aabb.xy.y, body.aabb.width, body.aabb.height)
      ensures resolution.Value() == Origin
      ensures collisions == [] && !lockingResolution
    {
      collisions := [];
      resolution := new BitPoint(0.0, 0.0);
      this.body := body;
      resolvedPosition := new BitRectangle.Copy(body.aabb);
      lockingResolution := false;
    }

    /**
      Lets the strategy choose the resolved position, then records the
      displacement from the body's corner to it.  The body itself does not
      move.
    */
    method Resolve(satisfy: Satisfier)
      requires Valid()
      modifies resolvedPosition, resolvedPosition.xy, resolution
      ensures Valid()
      ensures resolvedPosition.Value() == satisfy(old(resolvedPosition.Value()), old(body.aabb.Value()), collisions)
      ensures Add(body.aabb.xy.Value(), resolution.Value()) == resolvedPosition.xy.Value()
      ensures unchanged(body, body.aabb, body.aabb.xy)
    {
      var target := satisfy(resolvedPosition.Value(), body.aabb.Value(), collisions);
      resolvedPosition.xy.x := target.x;
      resolvedPosition.xy.y := target.y;
      resolvedPosition.width := target.width;
      resolvedPosition.height := target.height;
      resolution.x := resolvedPosition.xy.x - body.aabb.xy.x;
      resolution.y := resolvedPosition.xy.y - body.aabb.xy.y;
    }
  }

  /**
    A strategy that keeps the resolved position where it is gives a body
    with a normalised rectangle a zero resolution.
  */
  method ResolveInPlace(body: BitBody) returns (r: BitResolution)
    requires Normalized(body.aabb.Value())
    ensures fresh(r) && r.body == body
    ensures r.resolution.Value() == Origin
    ensures unchanged(body, body.aabb, body.aabb.xy)
  {
    r := new BitResolution(body);
    r.Resolve((current, _, _) => current);
  }
}

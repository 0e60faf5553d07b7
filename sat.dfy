/**
  The Separating Axis Theorem narrow phase.

  A shape is given by its projection points (a rectangle's four corners).
  Candidate axes are the perpendiculars of the shapes' edges; both shapes are
  projected onto every axis, and the shapes collide when every pair of
  projections overlaps with positive length.  Each overlapping axis yields
  one candidate manifold: the axis and the signed distance that moves the
  first shape out along it.

  Axes are used as built: an edge along a coordinate axis gives an exact unit
  axis, and a sloped edge gives the perpendicular (1, -run/rise) without the
  normalisation to unit length (see README).
*/
module Sat {
  import opened Wrappers
  import opened Geom

  const XAxis := Point(1.0, 0.0)
  const YAxis := Point(0.0, 1.0)
  const NegXAxis := Point(-1.0, 0.0)
  const NegYAxis := Point(0.0, -1.0)

  /** A projection onto an axis: the least and the greatest dot product. */
  datatype Interval = Interval(lo: real, hi: real)

  /** A candidate separation: an axis and the signed distance along it. */
  datatype Manifold = Manifold(axis: Point, distance: real)

  /** The manifold that moves nothing. */
  const ZeroManifold := Manifold(Origin, 0.0)

  /** The edge from point `i` to the next one, wrapping round to the first. */
  function Edge(points: seq<Point>, i: nat): Point
    requires i < |points|
  {
    var next := points[(i + 1) % |points|];
    Point(next.x - points[i].x, next.y - points[i].y)
  }

  // ---------------------------------------------------------------------
  // Axes
  // ---------------------------------------------------------------------

  /**
    The axis built for one edge: an exact unit axis for an edge along a
    coordinate axis, otherwise the perpendicular with x-component 1.  The
    result is always perpendicular to the edge.
  */
  function PerpendicularAxis(edge: Point): (axis: Point)
    ensures edge.x == 0.0 ==> axis == XAxis
    ensures edge.x != 0.0 && edge.y == 0.0 ==> axis == YAxis
    ensures edge.x != 0.0 && edge.y != 0.0 ==> axis.x == 1.0
  {
    if edge.x == 0.0 then XAxis
    else if edge.y == 0.0 then YAxis
    else Point(1.0, -edge.x / edge.y)
  }

  /** The axis built for an edge is perpendicular to it. */
  lemma PerpendicularAxisIsPerpendicular(edge: Point)
    ensures Dot(PerpendicularAxis(edge), edge) == 0.0
  {
    if edge.x != 0.0 && edge.y != 0.0 {
      var slope := -edge.x / edge.y;
      assert slope * edge.y == -edge.x;
    }
  }

  /** The candidate axes of one shape: one perpendicular per edge. */
  function Axes(points: seq<Point>): set<Point>
  {
    set i | 0 <= i < |points| :: PerpendicularAxis(Edge(points, i))
  }

  /** Every axis of a shape is perpendicular to one of its edges, and every edge contributes its axis. */
  lemma AxesArePerpendiculars(points: seq<Point>)
    ensures forall a | a in Axes(points) :: exists i :: 0 <= i < |points| && Dot(a, Edge(points, i)) == 0.0
    ensures forall i | 0 <= i < |points| :: PerpendicularAxis(Edge(points, i)) in Axes(points)
  {
    forall a | a in Axes(points) ensures exists i :: 0 <= i < |points| && Dot(a, Edge(points, i)) == 0.0 {
      var i :| 0 <= i < |points| && a == PerpendicularAxis(Edge(points, i));
      PerpendicularAxisIsPerpendicular(Edge(points, i));
    }
  }

  /** Builds the axes of a shape edge by edge. */
  method BuildAxes(points: seq<Point>) returns (axes: set<Point>)
    ensures axes == Axes(points)
  {
    axes := {};
    for i := 0 to |points|
      invariant axes == set j | 0 <= j < i :: PerpendicularAxis(Edge(points, j))
    {
      var first := points[i];
      var second := points[(i + 1) % |points|];
      var run := second.x - first.x;
      var rise := second.y - first.y;
      var axis;
      if run == 0.0 {
        axis := XAxis;
      } else if rise == 0.0 {
        axis := YAxis;
      } else {
        axis := Point(1.0, -run / rise);
      }
      assert axis == PerpendicularAxis(Edge(points, i));
      AxesPrefixGrows(points, i);
      axes := axes + {axis};
    }
  }

  lemma AxesPrefixGrows(points: seq<Point>, i: nat)
    requires i < |points|
    ensures (set j | 0 <= j < i + 1 :: PerpendicularAxis(Edge(points, j)))
         == (set j | 0 <= j < i :: PerpendicularAxis(Edge(points, j))) + {PerpendicularAxis(Edge(points, i))}
  {
    var small := set j | 0 <= j < i :: PerpendicularAxis(Edge(points, j));
    var large := set j | 0 <= j < i + 1 :: PerpendicularAxis(Edge(points, j));
    forall a | a in large ensures a in small + {PerpendicularAxis(Edge(points, i))} {
      var j :| 0 <= j < i + 1 && a == PerpendicularAxis(Edge(points, j));
      if j < i { assert a in small; }
    }
  }

  // ---------------------------------------------------------------------
  // Projection
  // ---------------------------------------------------------------------

  function Extend(line: Option<Interval>, v: real): Interval
  {
    match line
    case None => Interval(v, v)
    case Some(l) => Interval(Min(l.lo, v), Max(l.hi, v))
  }

  /**
    The projection of the points onto the axis, built point by point.  No
    points give `None`, standing for the empty interval (+infinity,
    -infinity) the engine starts from.
  */
  function Projection(axis: Point, points: seq<Point>): Option<Interval>
    decreases |points|
  {
    if |points| == 0 then None
    else
      var n := |points| - 1;
      Some(Extend(Projection(axis, points[..n]), Dot(axis, points[n])))
  }

  /**
    A projection is the least and the greatest dot product of the points
    with the axis: it bounds them all, both ends are attained, and it is
    empty only for no points.
  */
  lemma {:induction false} ProjectionIsHull(axis: Point, points: seq<Point>)
    ensures Projection(axis, points).None? <==> |points| == 0
    ensures Projection(axis, points).Some? ==>
      var l := Projection(axis, points).value;
      && l.lo <= l.hi
      && (forall i | 0 <= i < |points| :: l.lo <= Dot(axis, points[i]) <= l.hi)
      && (exists i :: 0 <= i < |points| && Dot(axis, points[i]) == l.lo)
      && (exists i :: 0 <= i < |points| && Dot(axis, points[i]) == l.hi)
    decreases |points|
  {
    if |points| > 0 {
      var n := |points| - 1;
      var prefix := points[..n];
      ProjectionIsHull(axis, prefix);
      assert forall i | 0 <= i < n :: prefix[i] == points[i];
      var v := Dot(axis, points[n]);
      var l := Projection(axis, points).value;
      if n == 0 {
        assert Dot(axis, points[0]) == l.lo == l.hi;
      } else {
        var p := Projection(axis, prefix).value;
        var i :| 0 <= i < n && Dot(axis, prefix[i]) == p.lo;
        var j :| 0 <= j < n && Dot(axis, prefix[j]) == p.hi;
        if v < p.lo { assert Dot(axis, points[n]) == l.lo; } else { assert Dot(axis, points[i]) == l.lo; }
        if v > p.hi { assert Dot(axis, points[n]) == l.hi; } else { assert Dot(axis, points[j]) == l.hi; }
      }
    }
  }

  /** Projects the points onto the axis, keeping the running minimum and maximum. */
  method Project(axis: Point, points: seq<Point>) returns (line: Option<Interval>)
    ensures line == Projection(axis, points)
  {
    line := None;
    for i := 0 to |points|
      invariant line == Projection(axis, points[..i])
    {
      var value := Dot(axis, points[i]);
      line := match line
        case None => Some(Interval(value, value))
        case Some(l) => Some(Interval(Min(l.lo, value), Max(l.hi, value)));
      assert points[..i + 1][..i] == points[..i];
    }
    assert points[..|points|] == points;
  }

  // ---------------------------------------------------------------------
  // Linear overlap
  // ---------------------------------------------------------------------

  /**
    The signed overlap of two projections, or `None` when they share no
    segment of positive length.  Its magnitude is the depth of the overlap;
    it is negative ("resolve left") exactly when pushing the first interval
    towards -infinity clears it by a shorter distance than pushing it
    towards +infinity; a tie resolves towards +infinity.
  */
  function LinearOverlap(l1: Interval, l2: Interval): (r: Option<real>)
    ensures r.None? <==> Min(l1.hi, l2.hi) - Max(l1.lo, l2.lo) <= 0.0
    ensures r.Some? ==> Abs(r.value) == Min(l1.hi, l2.hi) - Max(l1.lo, l2.lo)
    ensures r.Some? ==> (r.value < 0.0 <==> Abs(l2.lo - l1.hi) < Abs(l1.lo - l2.hi))
  {
    var overlap := Min(l1.hi, l2.hi) - Max(l1.lo, l2.lo);
    if overlap > 0.0 then
      var diff1 := Abs(l1.lo - l2.hi);
      var diff2 := Abs(l2.lo - l1.hi);
      Some(if diff2 < diff1 then -overlap else overlap)
    else None
  }

  /** Two intervals overlap exactly when they share a segment of positive length. */
  lemma OverlapIffSharedSegment(l1: Interval, l2: Interval)
    ensures LinearOverlap(l1, l2).Some? <==>
      (l1.lo < l1.hi && l2.lo < l2.hi && l1.lo < l2.hi && l2.lo < l1.hi)
  {
  }

  /** Swapping the intervals keeps the magnitude and flips the sign, except on a tie. */
  lemma OverlapSwapped(l1: Interval, l2: Interval)
    ensures LinearOverlap(l1, l2).Some? == LinearOverlap(l2, l1).Some?
    ensures LinearOverlap(l1, l2).Some? && Abs(l2.lo - l1.hi) != Abs(l1.lo - l2.hi) ==>
      LinearOverlap(l2, l1).value == -LinearOverlap(l1, l2).value
    ensures LinearOverlap(l1, l2).Some? && Abs(l2.lo - l1.hi) == Abs(l1.lo - l2.hi) ==>
      LinearOverlap(l2, l1) == LinearOverlap(l1, l2)
  {
  }

  function Shift(l: Interval, d: real): Interval { Interval(l.lo + d, l.hi + d) }

  /**
    The overlap is a minimum translation: when neither interval lies
    strictly inside the other, moving the first by the signed overlap leaves
    the two just touching, no longer overlapping.
  */
  lemma OverlapSeparates(l1: Interval, l2: Interval)
    requires LinearOverlap(l1, l2).Some?
    requires (l1.lo <= l2.lo && l1.hi <= l2.hi) || (l2.lo <= l1.lo && l2.hi <= l1.hi)
    ensures LinearOverlap(Shift(l1, LinearOverlap(l1, l2).value), l2).None?
  {
    var r := LinearOverlap(l1, l2).value;
    if l1.lo <= l2.lo && l1.hi <= l2.hi && (l1.lo < l2.lo || l1.hi < l2.hi) {
      assert r == -(l1.hi - l2.lo);
    } else {
      assert r == l2.hi - l1.lo;
    }
  }

  // ---------------------------------------------------------------------
  // Collision
  // ---------------------------------------------------------------------

  /** The overlap of the two shapes' projections on one axis. */
  function AxisOverlap(axis: Point, points1: seq<Point>, points2: seq<Point>): Option<real>
  {
    var line1 := Projection(axis, points1);
    var line2 := Projection(axis, points2);
    if line1.Some? && line2.Some? then LinearOverlap(line1.value, line2.value) else None
  }

  /** The candidate manifold for one axis (its distance is 0 when the axis separates the shapes). */
  function Candidate(axis: Point, points1: seq<Point>, points2: seq<Point>): Manifold
  {
    var overlap := AxisOverlap(axis, points1, points2);
    Manifold(axis, if overlap.Some? then overlap.value else 0.0)
  }

  function Candidates(axes: set<Point>, points1: seq<Point>, points2: seq<Point>): set<Manifold>
  {
    set a | a in axes :: Candidate(a, points1, points2)
  }

  /**
    The bundle of candidate manifolds for a set of axes: `None` when there
    are no axes or some axis separates the shapes, otherwise exactly one
    manifold per axis, carrying that axis' overlap.
  */
  function Bundle(axes: set<Point>, points1: seq<Point>, points2: seq<Point>): (r: Option<set<Manifold>>)
    ensures r.None? <==> axes == {} || exists a :: a in axes && AxisOverlap(a, points1, points2).None?
    ensures r.Some? ==> forall m | m in r.value :: m.axis in axes && AxisOverlap(m.axis, points1, points2) == Some(m.distance)
    ensures r.Some? ==> forall a | a in axes :: exists m :: m in r.value && m.axis == a
  {
    if axes != {} && forall a | a in axes :: AxisOverlap(a, points1, points2).Some? then
      var r := Candidates(axes, points1, points2);
      assert forall a | a in axes :: Candidate(a, points1, points2) in r;
      Some(r)
    else None
  }

  /** The collision of two shapes, over the axes of both. */
  function Collision(points1: seq<Point>, points2: seq<Point>): Option<set<Manifold>>
  {
    Bundle(Axes(points1) + Axes(points2), points1, points2)
  }

  lemma CandidatesGrow(done: set<Point>, axis: Point, points1: seq<Point>, points2: seq<Point>)
    ensures Candidates(done + {axis}, points1, points2) == Candidates(done, points1, points2) + {Candidate(axis, points1, points2)}
  {
  }

  /**
    Tests the axes one at a time, in no particular order, and gives up on
    the first that separates the shapes.
  */
  method MaybeBuildCollision(points1: seq<Point>, points2: seq<Point>, axes: set<Point>)
    returns (res: Option<set<Manifold>>)
    ensures res == Bundle(axes, points1, points2)
  {
    res := None;
    var todo := axes;
    ghost var done: set<Point> := {};
    while todo != {}
      invariant todo + done == axes && todo !! done
      invariant forall a | a in done :: AxisOverlap(a, points1, points2).Some?
      invariant res == if done == {} then None else Some(Candidates(done, points1, points2))
      decreases todo
    {
      var axis :| axis in todo;
      var line1 := Project(axis, points1);
      var line2 := Project(axis, points2);
      var overlap := if line1.Some? && line2.Some? then LinearOverlap(line1.value, line2.value) else None;
      assert overlap == AxisOverlap(axis, points1, points2);
      if overlap.None? {
        return None;
      }
      var candidates := if res.None? then {} else res.value;
      assert candidates == Candidates(done, points1, points2);
      assert Manifold(axis, overlap.value) == Candidate(axis, points1, points2);
      res := Some(candidates + {Manifold(axis, overlap.value)});
      CandidatesGrow(done, axis, points1, points2);
      todo := todo - {axis};
      done := done + {axis};
    }
  }

  /** Builds the collision of two shapes from their projection points. */
  method GetCollision(points1: seq<Point>, points2: seq<Point>) returns (res: Option<set<Manifold>>)
    ensures res == Collision(points1, points2)
  {
    var axes1 := BuildAxes(points1);
    var axes2 := BuildAxes(points2);
    res := MaybeBuildCollision(points1, points2, axes1 + axes2);
  }
  // ---------------------------------------------------------------------
  // Rectangles
  // ---------------------------------------------------------------------

  /** The four edges of a rectangle, in the order of its corners. */
  lemma RectEdges(r: Rect)
    ensures var ps := ProjectionPoints(r);
      && Edge(ps, 0) == Point(r.width, 0.0) && Edge(ps, 1) == Point(0.0, r.height)
      && Edge(ps, 2) == Point(-r.width, 0.0) && Edge(ps, 3) == Point(0.0, -r.height)
  {
    var ps := ProjectionPoints(r);
    assert (0 + 1) % 4 == 1 && (1 + 1) % 4 == 2 && (2 + 1) % 4 == 3 && (3 + 1) % 4 == 0;
  }

  /**
    A rectangle's axes: the x-axis always, and the y-axis unless the
    rectangle has no width.
  */
  lemma RectAxes(r: Rect)
    ensures Axes(ProjectionPoints(r)) == if r.width == 0.0 then {XAxis} else {XAxis, YAxis}
  {
    var ps := ProjectionPoints(r);
    RectEdges(r);
    var expected := if r.width == 0.0 then {XAxis} else {XAxis, YAxis};
    forall a | a in Axes(ps) ensures a in expected {
      var i :| 0 <= i < 4 && a == PerpendicularAxis(Edge(ps, i));
      assert i == 0 || i == 1 || i == 2 || i == 3;
    }
    assert PerpendicularAxis(Edge(ps, 0)) in Axes(ps);
    assert PerpendicularAxis(Edge(ps, 1)) in Axes(ps);
  }

  function XInterval(r: Rect): Interval { Interval(r.x, r.x + r.width) }
  function YInterval(r: Rect): Interval { Interval(r.y, r.y + r.height) }

  lemma ProjectionSnoc(axis: Point, points: seq<Point>, n: nat)
    requires n < |points|
    ensures Projection(axis, points[..n + 1]) == Some(Extend(Projection(axis, points[..n]), Dot(axis, points[n])))
  {
    assert points[..n + 1][..n] == points[..n];
  }

  /** Projecting a rectangle onto the x-axis (y-axis) gives its horizontal (vertical) extent. */
  lemma RectProjection(r: Rect)
    requires Normalized(r)
    ensures Projection(XAxis, ProjectionPoints(r)) == Some(XInterval(r))
    ensures Projection(YAxis, ProjectionPoints(r)) == Some(YInterval(r))
  {
    var ps := ProjectionPoints(r);
    assert ps[..4] == ps;
    assert Projection(XAxis, ps[..0]) == None && Projection(YAxis, ps[..0]) == None;
    assert Dot(XAxis, ps[0]) == r.x && Dot(XAxis, ps[1]) == r.x + r.width;
    assert Dot(XAxis, ps[2]) == r.x + r.width && Dot(XAxis, ps[3]) == r.x;
    assert Dot(YAxis, ps[0]) == r.y && Dot(YAxis, ps[1]) == r.y;
    assert Dot(YAxis, ps[2]) == r.y + r.height && Dot(YAxis, ps[3]) == r.y + r.height;
    ProjectionSnoc(XAxis, ps, 0);
    assert Projection(XAxis, ps[..1]) == Some(Interval(r.x, r.x));
    ProjectionSnoc(XAxis, ps, 1);
    assert Projection(XAxis, ps[..2]) == Some(XInterval(r));
    ProjectionSnoc(XAxis, ps, 2);
    assert Projection(XAxis, ps[..3]) == Some(XInterval(r));
    ProjectionSnoc(XAxis, ps, 3);
    ProjectionSnoc(YAxis, ps, 0);
    assert Projection(YAxis, ps[..1]) == Some(Interval(r.y, r.y));
    ProjectionSnoc(YAxis, ps, 1);
    assert Projection(YAxis, ps[..2]) == Some(Interval(r.y, r.y));
    ProjectionSnoc(YAxis, ps, 2);
    assert Projection(YAxis, ps[..3]) == Some(YInterval(r));
    ProjectionSnoc(YAxis, ps, 3);
  }

  /**
    For two rectangles the narrow phase agrees with the direct test: they
    collide exactly when their x-extents and their y-extents both overlap
    with positive length, that is, when they share a region of positive area.
  */
  lemma RectCollisionIff(a: Rect, b: Rect)
    requires Normalized(a) && Normalized(b)
    ensures Collision(ProjectionPoints(a), ProjectionPoints(b)).Some? <==>
      LinearOverlap(XInterval(a), XInterval(b)).Some? && LinearOverlap(YInterval(a), YInterval(b)).Some?
    ensures Collision(ProjectionPoints(a), ProjectionPoints(b)).Some? <==> Intersection(a, b).Some?
  {
    var pa, pb := ProjectionPoints(a), ProjectionPoints(b);
    RectAxes(a);
    RectAxes(b);
    RectProjection(a);
    RectProjection(b);
    assert AxisOverlap(XAxis, pa, pb) == LinearOverlap(XInterval(a), XInterval(b));
    assert AxisOverlap(YAxis, pa, pb) == LinearOverlap(YInterval(a), YInterval(b));
    if a.width == 0.0 && b.width == 0.0 {
      assert Axes(pa) + Axes(pb) == {XAxis};
      assert AxisOverlap(XAxis, pa, pb).None?;
    } else {
      assert Axes(pa) + Axes(pb) == {XAxis, YAxis};
    }
  }

  /** Whether two rectangles collide does not depend on the order they are given in. */
  lemma RectCollisionSymmetric(a: Rect, b: Rect)
    requires Normalized(a) && Normalized(b)
    ensures Collision(ProjectionPoints(a), ProjectionPoints(b)).Some? ==
            Collision(ProjectionPoints(b), ProjectionPoints(a)).Some?
  {
    RectCollisionIff(a, b);
    RectCollisionIff(b, a);
    IntersectionSymmetric(a, b);
  }

  // ---------------------------------------------------------------------
  // Axes as the engine builds them
  // ---------------------------------------------------------------------

  /**
    The axis the engine builds for one edge: for an edge along a coordinate
    axis it takes that edge's own direction instead of the perpendicular.
  */
  function EdgeAxisAsWritten(edge: Point): Point
  {
    if edge.x == 0.0 then YAxis
    else if edge.y == 0.0 then XAxis
    else Point(1.0, -edge.x / edge.y)
  }

  function AxesAsWritten(points: seq<Point>): set<Point>
  {
    set i | 0 <= i < |points| :: EdgeAxisAsWritten(Edge(points, i))
  }

  function CollisionAsWritten(points1: seq<Point>, points2: seq<Point>): Option<set<Manifold>>
  {
    Bundle(AxesAsWritten(points1) + AxesAsWritten(points2), points1, points2)
  }

  /** The engine's axis for a vertical edge is parallel to it, not perpendicular. */
  lemma EdgeAxisAsWrittenNotPerpendicular()
    ensures Dot(EdgeAxisAsWritten(Point(0.0, 10.0)), Point(0.0, 10.0)) != 0.0
  {
  }

  /** For a rectangle of no width every edge the engine sees is vertical or degenerate, so its only axis is the y-axis. */
  lemma ZeroWidthAxesAsWritten(r: Rect)
    requires r.width == 0.0
    ensures AxesAsWritten(ProjectionPoints(r)) == {YAxis}
  {
    var ps := ProjectionPoints(r);
    RectEdges(r);
    forall a | a in AxesAsWritten(ps) ensures a == YAxis {
      var i :| 0 <= i < 4 && a == EdgeAxisAsWritten(Edge(ps, i));
      assert i == 0 || i == 1 || i == 2 || i == 3;
    }
    assert EdgeAxisAsWritten(Edge(ps, 0)) in AxesAsWritten(ps);
  }

  /**
    For a rectangle of positive width and height the engine's axes are the
    two coordinate axes, the same set the corrected axes give: the defect
    shows only on rectangles of no width.
  */
  lemma PositiveRectAxesAsWritten(r: Rect)
    requires r.width > 0.0 && r.height > 0.0
    ensures AxesAsWritten(ProjectionPoints(r)) == {XAxis, YAxis}
    ensures AxesAsWritten(ProjectionPoints(r)) == Axes(ProjectionPoints(r))
  {
    var ps := ProjectionPoints(r);
    RectEdges(r);
    RectAxes(r);
    forall a | a in AxesAsWritten(ps) ensures a in {XAxis, YAxis} {
      var i :| 0 <= i < 4 && a == EdgeAxisAsWritten(Edge(ps, i));
      assert i == 0 || i == 1 || i == 2 || i == 3;
    }
    assert EdgeAxisAsWritten(Edge(ps, 0)) in AxesAsWritten(ps);
    assert EdgeAxisAsWritten(Edge(ps, 1)) in AxesAsWritten(ps);
  }

  /**
    Any two rectangles of zero width whose vertical extents overlap collide
    according to the engine's axes, however far apart they are horizontally.
  */
  lemma ZeroWidthCollideAsWritten(a: Rect, b: Rect)
    requires Normalized(a) && Normalized(b) && a.width == 0.0 && b.width == 0.0
    requires LinearOverlap(YInterval(a), YInterval(b)).Some?
    ensures CollisionAsWritten(ProjectionPoints(a), ProjectionPoints(b)).Some?
  {
    var pa, pb := ProjectionPoints(a), ProjectionPoints(b);
    ZeroWidthAxesAsWritten(a);
    ZeroWidthAxesAsWritten(b);
    RectProjection(a);
    RectProjection(b);
    assert AxisOverlap(YAxis, pa, pb).Some?;
    assert AxesAsWritten(pa) + AxesAsWritten(pb) == {YAxis};
  }

  /**
    Two rectangles of zero width, five units apart, with the same vertical
    extent: the engine's axes leave out the x-axis, so it reports a
    collision although the rectangles share no area; the corrected axes
    report none.
  */
  lemma ZeroWidthRectsCollideAsWritten()
    ensures var a, b := Rect(0.0, 0.0, 0.0, 10.0), Rect(5.0, 0.0, 0.0, 10.0);
      && CollisionAsWritten(ProjectionPoints(a), ProjectionPoints(b)).Some?
      && Intersection(a, b).None?
      && Collision(ProjectionPoints(a), ProjectionPoints(b)).None?
  {
    var a, b := Rect(0.0, 0.0, 0.0, 10.0), Rect(5.0, 0.0, 0.0, 10.0);
    assert CollisionAsWritten(ProjectionPoints(a), ProjectionPoints(b)).Some? by {
      assert LinearOverlap(YInterval(a), YInterval(b)).Some?;
      ZeroWidthCollideAsWritten(a, b);
    }
    assert Collision(ProjectionPoints(a), ProjectionPoints(b)).None? by {
      RectCollisionIff(a, b);
    }
  }

  // ---------------------------------------------------------------------
  // Solution against one body
  // ---------------------------------------------------------------------

  /**
    The manifold chooser applied to a non-empty bundle (the engine's
    `CollisionUtilities.solve`, which is not part of this model): given the
    bundle, the body's rectangle, the other rectangle and the resolution
    accumulated so far, it picks the manifold to apply.
  */
  type Solver = (set<Manifold>, Rect, Rect, Point) -> Manifold

  /**
    The manifold that resolves `body`, already moved by `cumulative`,
    against `against`: the zero manifold when the moved copy shares no
    area with `against`, the solver's choice otherwise.
  */
  function CollisionSolution(body: Rect, against: Rect, cumulative: Point, solve: Solver): (m: Manifold)
    ensures var moved := Translated(Normalize(body.x, body.y, body.width, body.height), cumulative.x, cumulative.y);
      Normalized(against) && Intersection(moved, against).None? ==> m == ZeroManifold
    ensures var moved := Translated(Normalize(body.x, body.y, body.width, body.height), cumulative.x, cumulative.y);
      var bundle := Collision(ProjectionPoints(moved), ProjectionPoints(against));
      Normalized(against) && Intersection(moved, against).Some? ==> bundle.Some? && m == solve(bundle.value, body, against, cumulative)
  {
    var moved := Translated(Normalize(body.x, body.y, body.width, body.height), cumulative.x, cumulative.y);
    var bundle := Collision(ProjectionPoints(moved), ProjectionPoints(against));
    if Normalized(against) then RectCollisionIff(moved, against); (if bundle.None? then ZeroManifold else solve(bundle.value, body, against, cumulative))
    else if bundle.None? then ZeroManifold else solve(bundle.value, body, against, cumulative)
  }

  /** Solves on a translated copy, so the body's own rectangle never moves. */
  method GetCollisionSolution(body: BitRectangle, against: BitRectangle, cumulative: Point, solve: Solver)
    returns (m: Manifold)
    ensures m == CollisionSolution(body.Value(), against.Value(), cumulative, solve)
  {
    var moved := body.CopyOf();
    var _ := moved.Translate(cumulative.x, cumulative.y);
    var bundle := GetCollision(ProjectionPoints(moved.Value()), ProjectionPoints(against.Value()));
    if bundle.None? {
      m := ZeroManifold;
    } else {
      m := solve(bundle.value, body.Value(), against.Value(), cumulative);
    }
  }

  // ---------------------------------------------------------------------
  // Tile direction permissions
  // ---------------------------------------------------------------------

  /** The four faces a tile can block, one bit each in its mask. */
  datatype Direction = Up | Down | Left | Right

  function DirectionBit(d: Direction): bv32
  {
    match d
    case Up => 1
    case Right => 2
    case Down => 4
    case Left => 8
  }

  function DirectionAxis(d: Direction): Point
  {
    match d
    case Right => XAxis
    case Left => NegXAxis
    case Up => YAxis
    case Down => NegYAxis
  }

  /** Whether the mask blocks the face of direction `d`. */
  predicate Blocks(nValue: bv32, d: Direction)
  {
    nValue & DirectionBit(d) != 0
  }

  /**
    Whether a manifold's axis may be used against a tile with mask
    `nValue`: only one of the four cardinal axes whose direction's bit is
    clear.
  */
  function AxisValidForNValue(axisOver: Manifold, nValue: bv32): bool
  {
    if axisOver.axis == XAxis && !Blocks(nValue, Right) then true
    else if axisOver.axis == NegXAxis && !Blocks(nValue, Left) then true
    else if axisOver.axis == YAxis && !Blocks(nValue, Up) then true
    else if axisOver.axis == NegYAxis && !Blocks(nValue, Down) then true
    else false
  }

  /**
    An axis is usable exactly when it is the axis of some direction whose
    bit is clear in the mask; any other axis is refused.
  */
  lemma AxisValidIff(axisOver: Manifold, nValue: bv32)
    ensures AxisValidForNValue(axisOver, nValue) <==>
      exists d :: axisOver.axis == DirectionAxis(d) && !Blocks(nValue, d)
  {
    var m := axisOver;
    if AxisValidForNValue(m, nValue) {
      ValidIsCardinal(m, nValue);
      var d := CardinalDirection(m);
      AxisValidPerDirection(d, m.distance, nValue);
      assert m == Manifold(DirectionAxis(d), m.distance);
    }
    if exists d :: m.axis == DirectionAxis(d) && !Blocks(nValue, d) {
      var d :| m.axis == DirectionAxis(d) && !Blocks(nValue, d);
      AxisValidPerDirection(d, m.distance, nValue);
      assert m == Manifold(DirectionAxis(d), m.distance);
    }
  }

  /** Only a cardinal axis can be valid; this is its direction. */
  function CardinalDirection(m: Manifold): (d: Direction)
    ensures m.axis in {XAxis, NegXAxis, YAxis, NegYAxis} ==> DirectionAxis(d) == m.axis
  {
    if m.axis == XAxis then Right else if m.axis == NegXAxis then Left else if m.axis == YAxis then Up else Down
  }

  lemma ValidIsCardinal(m: Manifold, nValue: bv32)
    ensures AxisValidForNValue(m, nValue) ==> m.axis in {XAxis, NegXAxis, YAxis, NegYAxis}
  {
  }

  /** A cardinal axis is usable exactly when its own direction's bit is clear, whatever the other bits. */
  lemma AxisValidPerDirection(d: Direction, distance: real, nValue: bv32)
    ensures AxisValidForNValue(Manifold(DirectionAxis(d), distance), nValue) <==> !Blocks(nValue, d)
  {
  }
}

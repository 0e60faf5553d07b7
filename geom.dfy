/**
  Geometry primitives of the physics engine: points, vectors and
  axis-aligned rectangles.

  `Point` and `Rect` are the values; `BitPoint` and `BitRectangle` are the
  mutable objects the engine translates in place.  A `BitRectangle`'s value
  is `Value()`, and every query on a rectangle (centre, containment,
  projection points) is a function of that value.
*/
module Geom {

  import opened Wrappers

  datatype Point = Point(x: real, y: real)

  const Origin := Point(0.0, 0.0)

  function Min(a: real, b: real): real { if a <= b then a else b }
  function Max(a: real, b: real): real { if a <= b then b else a }
  function Abs(a: real): real { if a < 0.0 then -a else a }

  function Add(p: Point, q: Point): Point { Point(p.x + q.x, p.y + q.y) }
  function Plus(p: Point, dx: real, dy: real): Point { Point(p.x + dx, p.y + dy) }
  function Scale(p: Point, k: real): Point { Point(p.x * k, p.y * k) }
  function Dot(a: Point, b: Point): real { a.x * b.x + a.y * b.y }

  /** A rectangle: its corner `xy` (here `x`, `y`) and its width and height. */
  datatype Rect = Rect(x: real, y: real, width: real, height: real)

  /** What the constructors guarantee: no negative size. */
  predicate Normalized(r: Rect) { r.width >= 0.0 && r.height >= 0.0 }

  function Corner(r: Rect): Point { Point(r.x, r.y) }

  /**
    The four-argument constructor: a negative size moves the corner by that
    size and flips the sign, so the rectangle covers the same span.
  */
  function Normalize(x: real, y: real, width: real, height: real): (r: Rect)
    ensures Normalized(r)
    ensures r.x == Min(x, x + width) && r.x + r.width == Max(x, x + width)
    ensures r.y == Min(y, y + height) && r.y + r.height == Max(y, y + height)
    ensures width >= 0.0 && height >= 0.0 ==> r == Rect(x, y, width, height)
  {
    Rect(if width < 0.0 then x + width else x,
         if height < 0.0 then y + height else y,
         if width < 0.0 then -width else width,
         if height < 0.0 then -height else height)
  }

  /** The two-point constructor: the rectangle spanned by `start` and `end`. */
  function Span(start: Point, end: Point): (r: Rect)
    ensures Normalized(r)
    ensures r.x == Min(start.x, end.x) && r.x + r.width == Max(start.x, end.x)
    ensures r.y == Min(start.y, end.y) && r.y + r.height == Max(start.y, end.y)
  {
    Normalize(start.x, start.y, end.x - start.x, end.y - start.y)
  }

  /** The centre/size constructor. */
  function Centered(center: Point, width: real, height: real): (r: Rect)
    ensures Normalized(r)
  {
    Normalize(center.x - width / 2.0, center.y - height / 2.0, width, height)
  }

  function Center(r: Rect): Point
  {
    Point(r.x + r.width / 2.0, r.y + r.height / 2.0)
  }

  function Translated(r: Rect, dx: real, dy: real): (t: Rect)
    ensures t.width == r.width && t.height == r.height
    ensures Corner(t) == Plus(Corner(r), dx, dy)
  {
    Rect(r.x + dx, r.y + dy, r.width, r.height)
  }

  function TranslatedBy(r: Rect, d: Point): Rect
  {
    Translated(r, d.x, d.y)
  }

  /** Point containment, inclusive on all four edges. */
  predicate Contains(r: Rect, px: real, py: real)
  {
    px >= r.x && px <= r.x + r.width && py >= r.y && py <= r.y + r.height
  }

  /** `inner` lies on or within the edges of `outer`. */
  predicate ContainsRect(outer: Rect, inner: Rect)
  {
    inner.x >= outer.x && inner.y >= outer.y
    && inner.x + inner.width <= outer.x + outer.width
    && inner.y + inner.height <= outer.y + outer.height
  }

  /**
    The common part of two rectangles, or `None` when they share no region
    of positive area (rectangles that only touch do not intersect).  This
    is the engine's intersection helper, which is not part of this model;
    its body here is the contract the engine relies on.
  */
  function Intersection(a: Rect, b: Rect): (r: Option<Rect>)
    ensures r.Some? <==>
      Max(a.x, b.x) < Min(a.x + a.width, b.x + b.width) && Max(a.y, b.y) < Min(a.y + a.height, b.y + b.height)
    ensures r.Some? ==> r.value.width > 0.0 && r.value.height > 0.0
    ensures r.Some? ==> ContainsRect(a, r.value) && ContainsRect(b, r.value)
  {
    var left, right := Max(a.x, b.x), Min(a.x + a.width, b.x + b.width);
    var bottom, top := Max(a.y, b.y), Min(a.y + a.height, b.y + b.height);
    if left < right && bottom < top then Some(Rect(left, bottom, right - left, top - bottom)) else None
  }

  /** The intersection holds every rectangle that lies in both, and nothing of positive area lies in both when there is none. */
  lemma IntersectionIsLargest(a: Rect, b: Rect, c: Rect)
    requires Normalized(c) && ContainsRect(a, c) && ContainsRect(b, c)
    ensures Intersection(a, b).Some? ==> ContainsRect(Intersection(a, b).value, c)
    ensures Intersection(a, b).None? ==> c.width == 0.0 || c.height == 0.0
  {
  }

  /** Intersection does not depend on the order of its arguments. */
  lemma IntersectionSymmetric(a: Rect, b: Rect)
    ensures Intersection(a, b) == Intersection(b, a)
  {
  }

  /** The corners in order: origin, bottom-right, top-right, top-left. */
  function ProjectionPoints(r: Rect): (ps: seq<Point>)
    ensures |ps| == 4 && ps[0] == Corner(r)
    ensures Normalized(r) ==> forall i | 0 <= i < 4 :: Contains(r, ps[i].x, ps[i].y)
  {
    var c := Corner(r);
    [c, Plus(c, r.width, 0.0), Plus(c, r.width, r.height), Plus(c, 0.0, r.height)]
  }

  /** Whichever order the two points are given in, the same rectangle results. */
  lemma SpanSymmetric(p: Point, q: Point)
    ensures Span(p, q) == Span(q, p)
  {
  }

  /** Both points given to the two-point constructor lie in the result. */
  lemma SpanContainsEnds(p: Point, q: Point)
    ensures Contains(Span(p, q), p.x, p.y) && Contains(Span(p, q), q.x, q.y)
  {
  }

  /** The centre/size constructor centres the rectangle, whatever the signs of the sizes. */
  lemma CenterOfCentered(c: Point, width: real, height: real)
    ensures Center(Centered(c, width, height)) == c
  {
  }

  /** Translating back by the opposite amount restores the rectangle. */
  lemma TranslateInverse(r: Rect, dx: real, dy: real)
    ensures Translated(Translated(r, dx, dy), -dx, -dy) == r
  {
  }

  /** Translation moves containment along with the rectangle. */
  lemma ContainsTranslated(r: Rect, dx: real, dy: real, px: real, py: real)
    ensures Contains(Translated(r, dx, dy), px + dx, py + dy) == Contains(r, px, py)
  {
  }

  lemma ContainsRectReflexive(r: Rect)
    ensures ContainsRect(r, r)
  {
  }

  lemma ContainsRectTransitive(a: Rect, b: Rect, c: Rect)
    requires ContainsRect(a, b) && ContainsRect(b, c)
    ensures ContainsRect(a, c)
  {
  }

  /** A contained rectangle's corners are contained points. */
  lemma ContainsRectCorners(outer: Rect, inner: Rect, i: nat)
    requires Normalized(inner) && ContainsRect(outer, inner) && i < 4
    ensures Contains(outer, ProjectionPoints(inner)[i].x, ProjectionPoints(inner)[i].y)
  {
  }

  /** A mutable point (the engine's BitPoint). */
  class BitPoint {
    var x: real
    var y: real

    constructor (x: real, y: real)
      ensures this.x == x && this.y == y
    {
      this.x := x;
      this.y := y;
    }

    function Value(): Point
      reads this
    {
      Point(x, y)
    }
  }

  /**
    A mutable rectangle: the corner is a point object owned by the
    rectangle, which `Translate` and `Set` change in place.
  */
  class BitRectangle {
    var xy: BitPoint
    var width: real
    var height: real

    function Value(): Rect
      reads this, xy
    {
      Rect(xy.x, xy.y, width, height)
    }

    /** The four-argument constructor, normalising negative sizes in place. */
    constructor (x: real, y: real, width: real, height: real)
      ensures fresh(xy)
      ensures Value() == Normalize(x, y, width, height)
    {
      var corner := new BitPoint(x, y);
      xy := corner;
      this.width := width;
      this.height := height;
      new;
      if width < 0.0 {
        xy.x := xy.x + width;
        this.width := this.width * -1.0;
      }
      if height < 0.0 {
        xy.y := xy.y + height;
        this.height := this.height * -1.0;
      }
    }

    /** The copy constructor: the other rectangle's value, normalised as the four-argument constructor does. */
    constructor Copy(other: BitRectangle)
      ensures fresh(xy)
      ensures Value() == Normalize(other.xy.x, other.xy.y, other.width, other.height)
    {
      var r := Normalize(other.xy.x, other.xy.y, other.width, other.height);
      xy := new BitPoint(r.x, r.y);
      width := r.width;
      height := r.height;
    }

    /** The two-point constructor. */
    constructor FromPoints(start: Point, end: Point)
      ensures fresh(xy)
      ensures Value() == Span(start, end)
    {
      var r := Span(start, end);
      xy := new BitPoint(r.x, r.y);
      width := r.width;
      height := r.height;
    }

    /** The centre/size constructor. */
    constructor FromCenter(center: Point, width: real, height: real)
      ensures fresh(xy)
      ensures Value() == Centered(center, width, height)
    {
      var r := Centered(center, width, height);
      xy := new BitPoint(r.x, r.y);
      this.width := r.width;
      this.height := r.height;
    }

    /** Takes over another rectangle's position and size, keeping its own corner object. */
    method Set(other: BitRectangle)
      modifies this, xy
      ensures xy == old(xy)
      ensures Value() == old(other.Value())
    {
      var ox, oy, ow, oh := other.xy.x, other.xy.y, other.width, other.height;
      xy.x := ox;
      xy.y := oy;
      width := ow;
      height := oh;
    }

    /** Moves the corner in place; returns this rectangle for chaining. */
    method Translate(dx: real, dy: real) returns (self: BitRectangle)
      modifies xy
      ensures self == this
      ensures Value() == Translated(old(Value()), dx, dy)
    {
      xy.x := xy.x + dx;
      xy.y := xy.y + dy;
      self := this;
    }

    /** A new rectangle with the same (normalised) value and its own corner object. */
    method CopyOf() returns (c: BitRectangle)
      ensures fresh(c) && fresh(c.xy)
      ensures c.Value() == Normalize(xy.x, xy.y, width, height)
      ensures Normalized(Value()) ==> c.Value() == Value()
    {
      c := new BitRectangle.Copy(this);
    }
  }

  /** Translating a copy leaves the original where it was. */
  method TranslatedCopyLeavesOriginal(r: BitRectangle, dx: real, dy: real) returns (c: BitRectangle)
    requires Normalized(r.Value())
    ensures fresh(c) && c.Value() == Translated(r.Value(), dx, dy)
    ensures unchanged(r, r.xy)
  {
    c := r.CopyOf();
    var _ := c.Translate(dx, dy);
  }
}

/**
  The bodies of the simulation world and what one step does to them, as
  values.  The world (module `World`) keeps its bodies in a store indexed
  by handle, so that the lists, the grid and the collision records can
  share a body the way the engine shares object references.
*/
module Bodies {

  import opened Wrappers
  import opened Geom

  type BodyId = nat

  datatype BodyType = Static | Dynamic | Kinetic

  datatype BodyProps = BodyProps(bodyType: BodyType, gravitational: bool)

  datatype Body = Body(
    aabb: Rect,
    velocity: Point,
    grounded: bool,
    active: bool,
    props: BodyProps,
    hasController: bool,
    /** Bodies riding on this one, carried along when it is kinetic. */
    children: seq<BodyId>,
    parent: Option<BodyId>,
    lastAttempt: Point,
    lastResolution: Point)

  type Store = map<BodyId, Body>

  /** What the resolution strategy decides for one body: the displacement and which velocity components to stop. */
  datatype Solution = Solution(resolution: Point, haltX: bool, haltY: bool)

  /** A collision waiting to be resolved: where the bodies overlap, and the other body. */
  datatype Collision = Collision(intersection: Rect, other: BodyId)

  /** The resolution records of one step: per body, its collisions in the order they were found. */
  type Pending = map<BodyId, seq<Collision>>

  /**
    The collaborators the step calls but this model does not contain:
    a body's controller (which sets the velocity), the shrinking applied to
    the displacement a kinetic body passes on to its riders, and the
    resolution strategy.
  */
  datatype Hooks = Hooks(
    control: (BodyId, Body, real) -> Point,
    shrink: Point -> Point,
    satisfy: (Store, BodyId, seq<Collision>) -> Solution)

  // ---------------------------------------------------------------------
  // Movement
  // ---------------------------------------------------------------------

  /** The velocity after gravity: pulled by `gravity` over `delta` for a gravitational dynamic body, unchanged otherwise. */
  function Fallen(b: Body, gravity: Point, delta: real): Point
  {
    if b.props.bodyType == Dynamic && b.props.gravitational then Add(b.velocity, Scale(gravity, delta)) else b.velocity
  }

  /** Gravity for gravitational dynamic bodies, then the controller, then the move of a non-static body. */
  function Moved(id: BodyId, b: Body, gravity: Point, delta: real, hooks: Hooks): (m: Body)
    // only the velocity, the attempt and the rectangle change
    ensures m == b.(velocity := m.velocity, lastAttempt := m.lastAttempt, aabb := m.aabb)
    // the controller, if any, sees the body with gravity applied and has the last word on the velocity
    ensures !b.hasController ==> m.velocity == Fallen(b, gravity, delta)
    ensures b.hasController ==> m.velocity == hooks.control(id, b.(velocity := Fallen(b, gravity, delta)), delta)
    // a static body stays put; any other attempts velocity * delta and moves by exactly that
    ensures b.props.bodyType == Static ==> m.aabb == b.aabb && m.lastAttempt == b.lastAttempt
    ensures b.props.bodyType != Static ==> m.lastAttempt == Scale(m.velocity, delta)
    ensures b.props.bodyType != Static ==> m.aabb == TranslatedBy(b.aabb, m.lastAttempt)
  {
    var fallen := b.(velocity := Fallen(b, gravity, delta));
    var steered := if b.hasController then fallen.(velocity := hooks.control(id, fallen, delta)) else fallen;
    if b.props.bodyType == Static then steered
    else
      var attempt := Scale(steered.velocity, delta);
      steered.(lastAttempt := attempt, aabb := TranslatedBy(steered.aabb, attempt))
  }

  /** A rider carried by a kinetic body's move: shifted by the shrunk move, credited with the whole move as an attempt, and detached. */
  function Carried(b: Body, attempt: Point, shrink: Point -> Point): (c: Body)
    ensures c == b.(aabb := c.aabb, lastAttempt := c.lastAttempt, parent := None)
    ensures c.aabb == TranslatedBy(b.aabb, shrink(attempt))
    // the rider counts the carrier's whole (unshrunk) attempt as its own
    ensures c.lastAttempt == Add(b.lastAttempt, attempt)
  {
    b.(aabb := TranslatedBy(b.aabb, shrink(attempt)), lastAttempt := Add(b.lastAttempt, attempt), parent := None)
  }

  /** Carries each rider in turn; handles with no body are passed over. */
  function Carry(store: Store, riders: seq<BodyId>, attempt: Point, shrink: Point -> Point): (r: Store)
    ensures r.Keys == store.Keys
    decreases |riders|
  {
    if |riders| == 0 then store
    else
      var s := Carry(store, riders[..|riders| - 1], attempt, shrink);
      var c := riders[|riders| - 1];
      if c in s then s[c := Carried(s[c], attempt, shrink)] else s
  }

  /** `after` is `before` with only the fields a carry writes changed. */
  predicate OnlyCarried(before: Body, after: Body)
  {
    after == before.(aabb := after.aabb, lastAttempt := after.lastAttempt, parent := after.parent)
  }

  /** Carrying touches exactly the riders: each is detached, every other body is left alone. */
  lemma {:induction false} CarryFacts(store: Store, riders: seq<BodyId>, attempt: Point, shrink: Point -> Point)
    ensures Carry(store, riders, attempt, shrink).Keys == store.Keys
    ensures forall j | j in store && j !in riders :: Carry(store, riders, attempt, shrink)[j] == store[j]
    ensures forall j | j in store && j in riders :: Carry(store, riders, attempt, shrink)[j].parent == None
    ensures forall j | j in store :: OnlyCarried(store[j], Carry(store, riders, attempt, shrink)[j])
    decreases |riders|
  {
    if |riders| > 0 {
      var front := riders[..|riders| - 1];
      CarryFacts(store, front, attempt, shrink);
      forall j | j in store && j in riders
        ensures Carry(store, riders, attempt, shrink)[j].parent == None
      {
        if j != riders[|riders| - 1] {
          assert j in front;
        }
      }
    }
  }

  /** Whether the active kinetic body `k` carries `j`. */
  predicate Carries(store: Store, k: BodyId, j: BodyId)
  {
    k in store && store[k].active && store[k].props.bodyType == Kinetic && j in store[k].children
  }

  /** Whether some body listed in `ids` carries `j`. */
  predicate CarriedBy(store: Store, ids: seq<BodyId>, j: BodyId)
  {
    exists i :: 0 <= i < |ids| && Carries(store, ids[i], j)
  }

  /** The movement of one listed body; an inactive or missing body is left where it is. */
  function MoveOne(store: Store, id: BodyId, gravity: Point, delta: real, hooks: Hooks): (r: Store)
    ensures r.Keys == store.Keys
  {
    if id !in store || !store[id].active then store
    else
      var b := Moved(id, store[id], gravity, delta, hooks);
      var kinetic := b.props.bodyType == Kinetic;
      var s := store[id := b];
      var s' := if kinetic then Carry(s, b.children, b.lastAttempt, hooks.shrink) else s;
      s'[id := s'[id].(children := if kinetic then [] else s'[id].children, grounded := false)]
  }

  /** The movement phase: the bodies move one after another, in list order. */
  function MovePhase(store: Store, ids: seq<BodyId>, gravity: Point, delta: real, hooks: Hooks): (r: Store)
    ensures r.Keys == store.Keys
    decreases |ids|
  {
    if |ids| == 0 then store
    else MoveOne(MovePhase(store, ids[..|ids| - 1], gravity, delta, hooks), ids[|ids| - 1], gravity, delta, hooks)
  }

  /**
    What movement never changes: the set of bodies, whether a body is
    active, its properties, and its riders except that a kinetic body's
    list may be emptied.
  */
  predicate Kept(before: Store, after: Store)
  {
    && after.Keys == before.Keys
    && forall j | j in before ::
         && after[j].active == before[j].active && after[j].props == before[j].props
         && (after[j].children == before[j].children || after[j].children == [])
  }

  /** The effect of one body's move on every body of the store. */
  lemma MoveOneFacts(store: Store, id: BodyId, gravity: Point, delta: real, hooks: Hooks)
    ensures var r := MoveOne(store, id, gravity, delta, hooks);
      && Kept(store, r)
      && (forall j | j in store && j != id && !Carries(store, id, j) :: r[j] == store[j])
      && (forall j | j in store && store[j].props.bodyType == Static && !Carries(store, id, j) :: r[j].aabb == store[j].aabb)
      && (id in store && store[id].active ==> !r[id].grounded)
      && (id in store && store[id].active && store[id].props.bodyType == Kinetic ==> r[id].children == [])
      && (forall j | j in store && Carries(store, id, j) :: r[j].parent == None)
      && (forall j | j in store && !store[j].grounded :: !r[j].grounded)
      && (forall j | j in store && store[j].parent == None :: r[j].parent == None)
      && (forall j | j in store && j != id :: r[j].children == store[j].children)
  {
    if id in store && store[id].active {
      var b := Moved(id, store[id], gravity, delta, hooks);
      var s := store[id := b];
      if b.props.bodyType == Kinetic {
        CarryFacts(s, b.children, b.lastAttempt, hooks.shrink);
      }
    }
  }

  /** A body a shorter list carries, or the last listed body carries, the whole list carries. */
  lemma CarriedByGrows(store: Store, ids: seq<BodyId>)
    requires |ids| > 0
    ensures forall j :: CarriedBy(store, ids[..|ids| - 1], j) ==> CarriedBy(store, ids, j)
    ensures forall j :: Carries(store, ids[|ids| - 1], j) ==> CarriedBy(store, ids, j)
  {
    var front := ids[..|ids| - 1];
    forall j | CarriedBy(store, front, j) ensures CarriedBy(store, ids, j) {
      var i :| 0 <= i < |front| && Carries(store, front[i], j);
      assert ids[i] == front[i];
    }
  }

  /** A body the whole list carries is carried by a shorter list or by the last listed body. */
  lemma CarriedBySplits(store: Store, ids: seq<BodyId>, j: BodyId)
    requires |ids| > 0 && CarriedBy(store, ids, j)
    ensures CarriedBy(store, ids[..|ids| - 1], j) || Carries(store, ids[|ids| - 1], j)
  {
    var i :| 0 <= i < |ids| && Carries(store, ids[i], j);
    if i < |ids| - 1 {
      assert ids[..|ids| - 1][i] == ids[i];
    }
  }

  /** Movement keeps the bodies, their activity, their properties, and their riders or none. */
  lemma {:induction false} MovePhaseKept(store: Store, ids: seq<BodyId>, gravity: Point, delta: real, hooks: Hooks)
    ensures Kept(store, MovePhase(store, ids, gravity, delta, hooks))
    decreases |ids|
  {
    if |ids| > 0 {
      var front := ids[..|ids| - 1];
      MovePhaseKept(store, front, gravity, delta, hooks);
      MoveOneFacts(MovePhase(store, front, gravity, delta, hooks), ids[|ids| - 1], gravity, delta, hooks);
    }
  }

  /** Only a listed body's own move can empty its riders. */
  lemma {:induction false} MovePhaseKeepsRiders(store: Store, ids: seq<BodyId>, gravity: Point, delta: real, hooks: Hooks, k: BodyId)
    requires k in store && k !in ids
    ensures MovePhase(store, ids, gravity, delta, hooks)[k].children == store[k].children
    decreases |ids|
  {
    if |ids| > 0 {
      var front := ids[..|ids| - 1];
      assert k !in front;
      MovePhaseKeepsRiders(store, front, gravity, delta, hooks, k);
      MoveOneFacts(MovePhase(store, front, gravity, delta, hooks), ids[|ids| - 1], gravity, delta, hooks);
    }
  }

  /**
    A body no listed kinetic body carries is left entirely alone when it is
    inactive or not listed, and keeps its rectangle when it is static.
  */
  lemma {:induction false} MovePhaseLeavesAlone(store: Store, ids: seq<BodyId>, gravity: Point, delta: real, hooks: Hooks, j: BodyId)
    requires j in store && !CarriedBy(store, ids, j)
    ensures j !in ids || !store[j].active ==> MovePhase(store, ids, gravity, delta, hooks)[j] == store[j]
    ensures store[j].props.bodyType == Static ==> MovePhase(store, ids, gravity, delta, hooks)[j].aabb == store[j].aabb
    decreases |ids|
  {
    if |ids| > 0 {
      var front, last := ids[..|ids| - 1], ids[|ids| - 1];
      var s := MovePhase(store, front, gravity, delta, hooks);
      CarriedByGrows(store, ids);
      MovePhaseKept(store, front, gravity, delta, hooks);
      MovePhaseLeavesAlone(store, front, gravity, delta, hooks, j);
      MoveOneFacts(s, last, gravity, delta, hooks);
      assert !Carries(s, last, j);
      assert j !in ids ==> j !in front && j != last;
    }
  }

  /**
    After the movement phase every active listed body is ungrounded, every
    active listed kinetic body has no riders, and every rider such a body
    had is detached.
  */
  lemma {:induction false} MovePhaseActive(store: Store, ids: seq<BodyId>, gravity: Point, delta: real, hooks: Hooks, j: BodyId)
    requires j in store
    ensures var r := MovePhase(store, ids, gravity, delta, hooks);
      && (j in ids && store[j].active ==> !r[j].grounded)
      && (j in ids && store[j].active && store[j].props.bodyType == Kinetic ==> r[j].children == [])
      && (CarriedBy(store, ids, j) ==> r[j].parent == None)
    decreases |ids|
  {
    if |ids| > 0 {
      var front, last := ids[..|ids| - 1], ids[|ids| - 1];
      var s := MovePhase(store, front, gravity, delta, hooks);
      MovePhaseKept(store, front, gravity, delta, hooks);
      MovePhaseActive(store, front, gravity, delta, hooks, j);
      MoveOneFacts(s, last, gravity, delta, hooks);
      if CarriedBy(store, ids, j) {
        CarriedBySplits(store, ids, j);
        if !CarriedBy(store, front, j) && last !in front {
          MovePhaseKeepsRiders(store, front, gravity, delta, hooks, last);
          assert Carries(s, last, j);
        }
      }
      assert j in ids && j != last ==> j in front;
    }
  }

  // ---------------------------------------------------------------------
  // Collision registration
  // ---------------------------------------------------------------------

  /** Whether `other` is already among the collisions. */
  predicate Lists(cs: seq<Collision>, other: BodyId)
  {
    exists i :: 0 <= i < |cs| && cs[i].other == other
  }

  /** No body's record lists the same other body twice. */
  predicate NoDuplicates(pending: Pending)
  {
    forall b, i, j | b in pending && 0 <= i < j < |pending[b]| :: pending[b][i].other != pending[b][j].other
  }

  /** The collision is against a body of the store, with the two bodies' true intersection. */
  predicate SoundCollision(store: Store, b: BodyId, c: Collision)
  {
    b in store && c.other in store && Intersection(store[b].aabb, store[c.other].aabb) == Some(c.intersection)
  }

  /** Every recorded collision is sound. */
  predicate Sound(store: Store, pending: Pending)
  {
    forall b, i | b in pending && 0 <= i < |pending[b]| :: SoundCollision(store, b, pending[b][i])
  }

  function Entry(pending: Pending, b: BodyId): seq<Collision>
  {
    if b in pending then pending[b] else []
  }

  /**
    The check for a new collision of `b` against `against`: a resolution
    record for `b` is opened when the two intersect, and the collision is
    appended unless `against` is already listed.
  */
  function Register(pending: Pending, store: Store, b: BodyId, against: BodyId): (r: Pending)
    requires b in store && against in store
    ensures Intersection(store[b].aabb, store[against].aabb).None? ==> r == pending
    ensures Intersection(store[b].aabb, store[against].aabb).Some? ==>
      && r.Keys == pending.Keys + {b}
      && Lists(r[b], against)
      && (Lists(Entry(pending, b), against) ==> r[b] == Entry(pending, b))
      && (!Lists(Entry(pending, b), against) ==>
            r[b] == Entry(pending, b) + [Collision(Intersection(store[b].aabb, store[against].aabb).value, against)])
    ensures forall k | k in pending && k != b :: k in r && r[k] == pending[k]
    ensures NoDuplicates(pending) ==> NoDuplicates(r)
    ensures Sound(store, pending) ==> Sound(store, r)
  {
    match Intersection(store[b].aabb, store[against].aabb)
    case None => pending
    case Some(insec) =>
      var cs := Entry(pending, b);
      if Lists(cs, against) then assert b in pending; assert pending[b := cs] == pending; pending
      else
        var r := pending[b := cs + [Collision(insec, against)]];
        assert cs + [Collision(insec, against)] == r[b];
        assert r[b][|cs|].other == against;
        assert Sound(store, pending) ==> Sound(store, r) by {
          if Sound(store, pending) {
            forall k, i | k in r && 0 <= i < |r[k]|
              ensures SoundCollision(store, k, r[k][i])
            {
              if k != b {
                assert r[k][i] == pending[k][i];
              } else if i < |cs| {
                assert r[k][i] == pending[b][i];
              } else {
                assert r[k][i] == Collision(insec, against);
              }
            }
          }
        }
        r
  }

  /** `after` keeps every record of `before` as a prefix of its own. */
  predicate Extends(before: Pending, after: Pending)
  {
    forall b | b in before :: b in after && before[b] <= after[b]
  }

  lemma RegisterExtends(pending: Pending, store: Store, b: BodyId, against: BodyId)
    requires b in store && against in store
    ensures Extends(pending, Register(pending, store, b, against))
  {
  }

  /** Registering the same pair twice changes nothing the second time. */
  lemma RegisterIdempotent(pending: Pending, store: Store, b: BodyId, against: BodyId)
    requires b in store && against in store
    ensures var once := Register(pending, store, b, against);
      Register(once, store, b, against) == once
  {
  }

  // ---------------------------------------------------------------------
  // Tiles
  // ---------------------------------------------------------------------

  function Ceil(r: real): int { -((-r).Floor) }

  /** The tile column (row) holding coordinate `p`, in grid coordinates. */
  function Tile(p: real, tileSize: int, offset: int): int
    requires tileSize > 0
  {
    (p / tileSize as real).Floor - offset
  }

  /** The first and last tile a body of extent [lo, lo + size] registers in along one axis. */
  function TileSpan(lo: real, size: real, tileSize: int, offset: int): (int, int)
    requires tileSize > 0
  {
    var start := Tile(lo, tileSize, offset);
    (start, start + Ceil(size / tileSize as real))
  }

  /** Every coordinate of the body's extent lies in a tile of its span. */
  lemma TileSpanCovers(lo: real, size: real, tileSize: int, offset: int, p: real)
    requires tileSize > 0 && lo <= p <= lo + size
    ensures TileSpan(lo, size, tileSize, offset).0 <= Tile(p, tileSize, offset) <= TileSpan(lo, size, tileSize, offset).1
  {
    var t := tileSize as real;
    var a, b, q := lo / t, size / t, p / t;
    assert q - a == (p - lo) / t;
    assert a + b - q == (lo + size - p) / t;
    assert a <= q <= a + b;
    // q < floor(a) + 1 + ceil(b), so floor(q) <= floor(a) + ceil(b)
    assert q.Floor <= a.Floor + Ceil(b);
  }

  // ---------------------------------------------------------------------
  // Applying a resolution
  // ---------------------------------------------------------------------

  /** Whether a displacement counts as pushing the body out against gravity. */
  predicate Grounds(r: Point, gravity: Point)
  {
    (r.x != 0.0 || r.y != 0.0) && Abs(gravity.y - r.y) > Abs(gravity.y)
  }

  /**
    Moves the body by the resolution, stops the halted velocity components,
    grounds it when the resolution pushes against gravity, and remembers
    the resolution.
  */
  function ApplyResolution(b: Body, s: Solution, gravity: Point): (a: Body)
    ensures a.aabb == TranslatedBy(b.aabb, s.resolution)
    ensures a.velocity.x == (if s.haltX then 0.0 else b.velocity.x)
    ensures a.velocity.y == (if s.haltY then 0.0 else b.velocity.y)
    ensures a.grounded <==> b.grounded || Grounds(s.resolution, gravity)
    ensures a.lastResolution == s.resolution
    ensures a == b.(aabb := a.aabb, velocity := a.velocity, grounded := a.grounded, lastResolution := a.lastResolution)
  {
    var r := s.resolution;
    var moved := if r.x != 0.0 || r.y != 0.0 then b.(aabb := TranslatedBy(b.aabb, r), grounded := b.grounded || Abs(gravity.y - r.y) > Abs(gravity.y)) else b;
    moved.(velocity := Point(if s.haltX then 0.0 else b.velocity.x, if s.haltY then 0.0 else b.velocity.y), lastResolution := r)
  }

  /**
    Under downward gravity a resolution grounds the body exactly when it
    pushes the body up, or down by more than twice the gravity.
  */
  lemma GroundsUnderDownwardGravity(r: Point, gravity: Point)
    requires gravity.y < 0.0
    ensures Grounds(r, gravity) <==> r.y > 0.0 || r.y < 2.0 * gravity.y
  {
  }

  /** With no gravity, any vertical push grounds the body and a purely horizontal one does not. */
  lemma GroundsWithoutGravity(r: Point)
    ensures Grounds(r, Point(0.0, 0.0)) <==> r.y != 0.0
  {
  }
}

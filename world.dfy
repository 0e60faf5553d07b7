/**
  The simulation world: it advances in fixed time steps, takes in and
  drops bodies between steps, and in each step moves the bodies, finds
  their collisions through a tile grid, and applies the resolutions the
  resolution strategy chooses.
*/
module World {

  import opened Wrappers
  import opened Geom
  import opened Bodies

  /** The fixed time step: 1/120 of a second. */
  const StepSize: real := 1.0 / 120.0

  /** Per tile column and row, the bodies registered in that tile during this step. */
  type Occupancy = map<int, map<int, set<BodyId>>>

  function Occupants(m: Occupancy, x: int, y: int): set<BodyId>
  {
    if x in m && y in m[x] then m[x][y] else {}
  }

  datatype Offset = Offset(x: int, y: int)

  /** A level: its tile size, where its grid starts, and its tiles (a body per tile, or none). */
  datatype Level = Level(tileSize: int, gridOffset: Offset, gridObjects: seq<seq<Option<BodyId>>>)

  /** The tiles a rectangle registers in: columns `x0` to `x1` and rows `y0` to `y1`, all inclusive. */
  datatype TileBox = TileBox(x0: int, x1: int, y0: int, y1: int)

  predicate InBox(box: TileBox, x: int, y: int)
  {
    box.x0 <= x <= box.x1 && box.y0 <= y <= box.y1
  }

  function BoxOf(r: Rect, tileSize: int, offset: Offset): TileBox
    requires tileSize > 0
  {
    var xs, ys := TileSpan(r.x, r.width, tileSize, offset.x), TileSpan(r.y, r.height, tileSize, offset.y);
    TileBox(xs.0, xs.1, ys.0, ys.1)
  }

  /** Every point of the rectangle lies in one of the tiles it registers in. */
  lemma BoxCovers(r: Rect, tileSize: int, offset: Offset, px: real, py: real)
    requires tileSize > 0 && Contains(r, px, py)
    ensures InBox(BoxOf(r, tileSize, offset), Tile(px, tileSize, offset.x), Tile(py, tileSize, offset.y))
  {
    TileSpanCovers(r.x, r.width, tileSize, offset.x, px);
    TileSpanCovers(r.y, r.height, tileSize, offset.y, py);
  }

  /** Whether a cell lies on the grid (the grid helper's contract). */
  predicate OnGrid(grid: array2<Option<BodyId>>, x: int, y: int)
  {
    0 <= x < grid.Length0 && 0 <= y < grid.Length1
  }

  /** The bodies left after removing every occurrence of the removed ones, in their order. */
  function Without(ids: seq<BodyId>, removed: seq<BodyId>): (r: seq<BodyId>)
    ensures forall j :: j in r <==> j in ids && j !in removed
    ensures |r| <= |ids|
    ensures removed == [] ==> r == ids
    decreases |ids|
  {
    if |ids| == 0 then []
    else
      var front := Without(ids[..|ids| - 1], removed);
      var last := ids[|ids| - 1];
      assert forall j :: j in ids <==> j in ids[..|ids| - 1] || j == last;
      assert ids[..|ids| - 1] + [last] == ids;
      if last in removed then front else front + [last]
  }

  /**
    Removal keeps the order of what is left: it works on each part of a
    list separately, and one body is dropped exactly when it is removed.
  */
  lemma {:induction false} WithoutKeepsOrder(a: seq<BodyId>, b: seq<BodyId>, removed: seq<BodyId>)
    ensures Without(a + b, removed) == Without(a, removed) + Without(b, removed)
    ensures forall x :: Without([x], removed) == if x in removed then [] else [x]
    decreases |b|
  {
    forall x ensures Without([x], removed) == if x in removed then [] else [x] {
      assert [x][..0] == [];
    }
    if |b| == 0 {
      assert a + b == a;
    } else {
      var front := b[..|b| - 1];
      WithoutKeepsOrder(a, front, removed);
      assert (a + b)[..|a + b| - 1] == a + front;
      assert (a + b)[|a + b| - 1] == b[|b| - 1];
    }
  }

  /** A body as the engine creates it: at rest, ungrounded, active, alone and uncontrolled. */
  function NewBody(aabb: Rect, props: BodyProps): Body
  {
    Body(aabb, Origin, false, true, props, false, [], None, Origin, Origin)
  }

  /** Whether a body takes part in the level and kinetic collision checks of a step. */
  predicate Collides(b: Body)
  {
    b.active && b.props.bodyType == Dynamic
  }

  /** Body `k`'s record is the same in `before` and `after`, or absent from both. */
  predicate OthersKept(before: Pending, after: Pending, k: BodyId)
  {
    (k in after <==> k in before) && (k in after ==> after[k] == before[k])
  }

  /** Whether `b`'s record lists `other`. */
  predicate ListsIn(pending: Pending, b: BodyId, other: BodyId)
  {
    b in pending && Lists(pending[b], other)
  }

  /** A listed collision stays listed when the records grow. */
  lemma ListsGrow(before: Pending, after: Pending, b: BodyId, other: BodyId)
    requires Extends(before, after) && ListsIn(before, b, other)
    ensures ListsIn(after, b, other)
  {
    var i :| 0 <= i < |before[b]| && before[b][i].other == other;
    assert after[b][i] == before[b][i];
  }

  /** When the tile at (x, y) holds a body that `id` intersects, `id`'s record lists that body. */
  predicate TileRegistered(pending: Pending, store: Store, grid: array2<Option<BodyId>>, id: BodyId, x: int, y: int)
    reads grid
  {
    OnGrid(grid, x, y) && grid[x, y].Some? && id in store && grid[x, y].value in store
      && Intersection(store[id].aabb, store[grid[x, y].value].aabb).Some?
    ==> ListsIn(pending, id, grid[x, y].value)
  }

  /** When `o` intersects the kinetic body `k`, `o`'s record lists `k`. */
  predicate KineticRegistered(pending: Pending, store: Store, o: BodyId, k: BodyId)
  {
    o in store && k in store && Intersection(store[o].aabb, store[k].aabb).Some? ==> ListsIn(pending, o, k)
  }

  /** Every collision recorded in `after` beyond what `before` had is against `k`. */
  predicate NewAgainst(before: Pending, after: Pending, k: BodyId)
  {
    forall b, i | b in after && 0 <= i < |after[b]| && (b !in before || i >= |before[b]|) :: after[b][i].other == k
  }

  /** Registering collisions against `k` adds only collisions against `k`. */
  lemma RegisterAgainst(before: Pending, pending: Pending, store: Store, o: BodyId, k: BodyId)
    requires o in store && k in store
    requires Extends(before, pending) && NewAgainst(before, pending, k)
    ensures NewAgainst(before, Register(pending, store, o, k), k)
  {
    var r: Pending := Register(pending, store, o, k);
    forall b, i | b in r && 0 <= i < |r[b]| && (b !in before || i >= |before[b]|)
      ensures r[b][i].other == k
    {
      if b != o || i < |Entry(pending, o)| {
        assert b in pending && r[b][i] == pending[b][i];
      }
    }
  }

  /** The body of every tile exists. */
  predicate TilesIn(grid: array2<Option<BodyId>>, store: Store)
    reads grid
  {
    forall x, y | 0 <= x < grid.Length0 && 0 <= y < grid.Length1 && grid[x, y].Some? :: grid[x, y].value in store
  }

  /** Every handle in the store was handed out before `nextId`. */
  predicate IdsBelow(store: Store, nextId: nat)
  {
    forall k | k in store :: k < nextId
  }

  /** Handles and tiles stay valid while the store keeps its handles. */
  lemma SameHandles(grid: array2<Option<BodyId>>, before: Store, after: Store, nextId: nat)
    requires after.Keys == before.Keys
    requires IdsBelow(before, nextId) && TilesIn(grid, before)
    ensures IdsBelow(after, nextId) && TilesIn(grid, after)
  {
  }

  /** Only active dynamic bodies are registered in tiles. */
  ghost predicate OccupantsCollide(occ: Occupancy, store: Store)
  {
    forall x, y, o | o in Occupants(occ, x, y) :: o in store && Collides(store[o])
  }

  /** Only active dynamic bodies have resolutions pending. */
  predicate KeysCollide(pending: Pending, store: Store)
  {
    forall b | b in pending :: b in store && Collides(store[b])
  }

  /** Every record but `id`'s is as it was. */
  ghost predicate OnlyRecordOf(before: Pending, after: Pending, id: BodyId)
  {
    forall k | k != id :: OthersKept(before, after, k)
  }

  /** Cell (cx, cy) comes before cell (x, y) in column-major order. */
  predicate Before(cx: int, cy: int, x: int, y: int)
  {
    cx < x || (cx == x && cy < y)
  }

  /** `id` registered in tile (x, y). */
  function OccupyCell(occ: Occupancy, x: int, y: int, id: BodyId): Occupancy
  {
    var column := if x in occ then occ[x] else map[];
    var column' := if y in column then column else column[y := {}];
    occ[x := column'[y := column'[y] + {id}]]
  }

  /** Registering `id` in tile (x, y) adds it to that tile and to no other. */
  lemma OccupantsAfterOccupy(occ: Occupancy, x: int, y: int, id: BodyId, cx: int, cy: int)
    ensures Occupants(OccupyCell(occ, x, y, id), cx, cy) == Occupants(occ, cx, cy) + (if cx == x && cy == y then {id} else {})
  {
  }

  /** The tiles of `box` before (x, y) hold `id` on top of what they held; no other tile changed. */
  ghost predicate OccupiedUpTo(occ0: Occupancy, occ: Occupancy, id: BodyId, box: TileBox, x: int, y: int)
  {
    forall cx, cy :: Occupants(occ, cx, cy) == Occupants(occ0, cx, cy) + (if InBox(box, cx, cy) && Before(cx, cy, x, y) then {id} else {})
  }

  lemma OccupyStep(occ0: Occupancy, occ: Occupancy, id: BodyId, box: TileBox, x: int, y: int)
    requires OccupiedUpTo(occ0, occ, id, box, x, y) && InBox(box, x, y)
    ensures OccupiedUpTo(occ0, OccupyCell(occ, x, y, id), id, box, x, y + 1)
  {
    var occ' := OccupyCell(occ, x, y, id);
    forall cx, cy ensures Occupants(occ', cx, cy) == Occupants(occ0, cx, cy) + (if InBox(box, cx, cy) && Before(cx, cy, x, y + 1) then {id} else {})
    {
      assert Occupants(occ, cx, cy) == Occupants(occ0, cx, cy) + (if InBox(box, cx, cy) && Before(cx, cy, x, y) then {id} else {});
      OccupantsAfterOccupy(occ, x, y, id, cx, cy);
      assert Before(cx, cy, x, y + 1) == (Before(cx, cy, x, y) || (cx == x && cy == y));
    }
  }

  /** The tiles before (x, y) with `y` past the box are the tiles before the next column. */
  lemma OccupyColumnDone(occ0: Occupancy, occ: Occupancy, id: BodyId, box: TileBox, x: int, y: int)
    requires OccupiedUpTo(occ0, occ, id, box, x, y) && y > box.y1
    ensures OccupiedUpTo(occ0, occ, id, box, x + 1, box.y0)
  {
    assert forall cx, cy | InBox(box, cx, cy) :: Before(cx, cy, x, y) == Before(cx, cy, x + 1, box.y0);
  }

  /** Registering `id` in a tile keeps only active dynamic bodies in the tiles. */
  lemma OccupyCollide(occ: Occupancy, store: Store, x: int, y: int, id: BodyId)
    requires OccupantsCollide(occ, store) && id in store && Collides(store[id])
    ensures OccupantsCollide(OccupyCell(occ, x, y, id), store)
  {
    var occ' := OccupyCell(occ, x, y, id);
    forall cx, cy, o | o in Occupants(occ', cx, cy) ensures o in store && Collides(store[o]) {
      OccupantsAfterOccupy(occ, x, y, id, cx, cy);
    }
  }

  /**
    A check of `id` against another body keeps every other record, grows
    the records, and keeps only active dynamic bodies among the keys.
  */
  lemma RegisterKeeps(pending0: Pending, pending: Pending, store: Store, id: BodyId, against: BodyId)
    requires id in store && against in store && Collides(store[id])
    requires Extends(pending0, pending) && OnlyRecordOf(pending0, pending, id) && KeysCollide(pending, store)
    ensures Extends(pending0, Register(pending, store, id, against))
    ensures OnlyRecordOf(pending0, Register(pending, store, id, against), id)
    ensures KeysCollide(Register(pending, store, id, against), store)
  {
    var r := Register(pending, store, id, against);
    RegisterExtends(pending, store, id, against);
    forall b | b in pending0 ensures b in r && pending0[b] <= r[b] {
      assert pending0[b] <= pending[b] <= r[b];
    }
    forall k | k != id ensures OthersKept(pending0, r, k) {
      assert OthersKept(pending0, pending, k);
      if k in pending {
        assert k in r && r[k] == pending[k];
      }
    }
  }

  /** Every tile of `box` before (x, y) is registered. */
  ghost predicate RegisteredUpTo(pending: Pending, store: Store, grid: array2<Option<BodyId>>, id: BodyId, box: TileBox, x: int, y: int)
    reads grid
  {
    forall cx, cy | InBox(box, cx, cy) && Before(cx, cy, x, y) :: TileRegistered(pending, store, grid, id, cx, cy)
  }

  lemma RegisterStep(pending: Pending, pending': Pending, store: Store, grid: array2<Option<BodyId>>, id: BodyId, box: TileBox, x: int, y: int)
    requires RegisteredUpTo(pending, store, grid, id, box, x, y) && Extends(pending, pending')
    requires TileRegistered(pending', store, grid, id, x, y)
    ensures RegisteredUpTo(pending', store, grid, id, box, x, y + 1)
  {
    forall cx, cy | InBox(box, cx, cy) && Before(cx, cy, x, y + 1)
      ensures TileRegistered(pending', store, grid, id, cx, cy)
    {
      if Before(cx, cy, x, y) && OnGrid(grid, cx, cy) && grid[cx, cy].Some? && ListsIn(pending, id, grid[cx, cy].value) {
        ListsGrow(pending, pending', id, grid[cx, cy].value);
      }
    }
  }

  lemma RegisterColumnDone(pending: Pending, store: Store, grid: array2<Option<BodyId>>, id: BodyId, box: TileBox, x: int, y: int)
    requires RegisteredUpTo(pending, store, grid, id, box, x, y) && y > box.y1
    ensures RegisteredUpTo(pending, store, grid, id, box, x + 1, box.y0)
  {
    assert forall cx, cy | InBox(box, cx, cy) :: Before(cx, cy, x, y) == Before(cx, cy, x + 1, box.y0);
  }

  /**
    Progress of the level broad phase for `id` over `box`: the tiles before
    (x, y) hold `id` and have been checked, the records stay sound and
    grow, and only `id`'s record changed.
  */
  ghost predicate LevelDone(occ0: Occupancy, pending0: Pending, occ: Occupancy, pending: Pending, store: Store,
                            grid: array2<Option<BodyId>>, id: BodyId, box: TileBox, x: int, y: int)
    reads grid
  {
    && NoDuplicates(pending) && Sound(store, pending)
    && OccupantsCollide(occ, store) && KeysCollide(pending, store)
    && Extends(pending0, pending) && OnlyRecordOf(pending0, pending, id)
    && OccupiedUpTo(occ0, occ, id, box, x, y)
    && RegisteredUpTo(pending, store, grid, id, box, x, y)
  }

  lemma LevelStart(occ: Occupancy, pending: Pending, store: Store, grid: array2<Option<BodyId>>, id: BodyId, box: TileBox)
    requires NoDuplicates(pending) && Sound(store, pending) && OccupantsCollide(occ, store) && KeysCollide(pending, store)
    ensures LevelDone(occ, pending, occ, pending, store, grid, id, box, box.x0, box.y0)
  {
    forall k | k != id ensures OthersKept(pending, pending, k) {}
  }

  /** Opening an empty column changes no tile. */
  lemma LevelOpenColumn(occ0: Occupancy, pending0: Pending, occ: Occupancy, pending: Pending, store: Store,
                        grid: array2<Option<BodyId>>, id: BodyId, box: TileBox, x: int)
    requires x !in occ && LevelDone(occ0, pending0, occ, pending, store, grid, id, box, x, box.y0)
    ensures LevelDone(occ0, pending0, occ[x := map[]], pending, store, grid, id, box, x, box.y0)
  {
    assert forall cx, cy :: Occupants(occ[x := map[]], cx, cy) == Occupants(occ, cx, cy);
    var occ' := occ[x := map[]];
    forall cx, cy, o | o in Occupants(occ', cx, cy) ensures o in store && Collides(store[o]) {
      assert o in Occupants(occ, cx, cy);
    }
  }

  /** One tile: `id` is registered in it, then checked against its level body when there is one. */
  lemma LevelCell(occ0: Occupancy, pending0: Pending, occ: Occupancy, pending: Pending, pending': Pending, store: Store,
                  grid: array2<Option<BodyId>>, id: BodyId, box: TileBox, x: int, y: int)
    requires id in store && Collides(store[id]) && TilesIn(grid, store) && InBox(box, x, y)
    requires LevelDone(occ0, pending0, occ, pending, store, grid, id, box, x, y)
    requires pending' == if OnGrid(grid, x, y) && grid[x, y].Some? then Register(pending, store, id, grid[x, y].value) else pending
    ensures LevelDone(occ0, pending0, OccupyCell(occ, x, y, id), pending', store, grid, id, box, x, y + 1)
  {
    OccupyStep(occ0, occ, id, box, x, y);
    OccupyCollide(occ, store, x, y, id);
    if OnGrid(grid, x, y) && grid[x, y].Some? {
      RegisterKeeps(pending0, pending, store, id, grid[x, y].value);
      RegisterExtends(pending, store, id, grid[x, y].value);
    } else {
      forall b | b in pending ensures pending[b] <= pending'[b] {}
    }
    RegisterStep(pending, pending', store, grid, id, box, x, y);
  }

  lemma LevelColumn(occ0: Occupancy, pending0: Pending, occ: Occupancy, pending: Pending, store: Store,
                    grid: array2<Option<BodyId>>, id: BodyId, box: TileBox, x: int, y: int)
    requires y > box.y1 && LevelDone(occ0, pending0, occ, pending, store, grid, id, box, x, y)
    ensures LevelDone(occ0, pending0, occ, pending, store, grid, id, box, x + 1, box.y0)
  {
    OccupyColumnDone(occ0, occ, id, box, x, y);
    RegisterColumnDone(pending, store, grid, id, box, x, y);
  }

  /** Past the last column, every tile of the box holds `id` and has been checked. */
  lemma LevelFinish(occ0: Occupancy, pending0: Pending, occ: Occupancy, pending: Pending, store: Store,
                    grid: array2<Option<BodyId>>, id: BodyId, box: TileBox, x: int)
    requires x > box.x1 && LevelDone(occ0, pending0, occ, pending, store, grid, id, box, x, box.y0)
    ensures forall cx, cy :: Occupants(occ, cx, cy) == Occupants(occ0, cx, cy) + (if InBox(box, cx, cy) then {id} else {})
    ensures forall cx, cy | InBox(box, cx, cy) :: TileRegistered(pending, store, grid, id, cx, cy)
  {
    assert forall cx, cy | InBox(box, cx, cy) :: Before(cx, cy, x, box.y0);
  }

  /** Every body registered in a tile of `box` before (x, y) that intersects `k` lists `k`. */
  ghost predicate KineticUpTo(pending: Pending, store: Store, occ: Occupancy, k: BodyId, box: TileBox, x: int, y: int)
  {
    forall cx, cy, o | InBox(box, cx, cy) && Before(cx, cy, x, y) && o in Occupants(occ, cx, cy) :: KineticRegistered(pending, store, o, k)
  }

  /** A registration check keeps what earlier checks registered. */
  lemma KineticGrow(pending: Pending, pending': Pending, store: Store, occ: Occupancy, k: BodyId, box: TileBox, x: int, y: int, done: set<BodyId>)
    requires Extends(pending, pending')
    requires KineticUpTo(pending, store, occ, k, box, x, y)
    requires forall o | o in done :: KineticRegistered(pending, store, o, k)
    ensures KineticUpTo(pending', store, occ, k, box, x, y)
    ensures forall o | o in done :: KineticRegistered(pending', store, o, k)
  {
    forall cx, cy, o | InBox(box, cx, cy) && Before(cx, cy, x, y) && o in Occupants(occ, cx, cy)
      ensures KineticRegistered(pending', store, o, k)
    {
      assert KineticRegistered(pending, store, o, k);
      if ListsIn(pending, o, k) {
        ListsGrow(pending, pending', o, k);
      }
    }
    forall o | o in done ensures KineticRegistered(pending', store, o, k) {
      if ListsIn(pending, o, k) {
        ListsGrow(pending, pending', o, k);
      }
    }
  }

  /** Once every body of tile (x, y) is checked, the tiles before (x, y + 1) are done. */
  lemma KineticStep(pending: Pending, store: Store, occ: Occupancy, k: BodyId, box: TileBox, x: int, y: int)
    requires KineticUpTo(pending, store, occ, k, box, x, y)
    requires forall o | o in Occupants(occ, x, y) :: KineticRegistered(pending, store, o, k)
    ensures KineticUpTo(pending, store, occ, k, box, x, y + 1)
  {
  }

  lemma KineticColumnDone(pending: Pending, store: Store, occ: Occupancy, k: BodyId, box: TileBox, x: int, y: int)
    requires KineticUpTo(pending, store, occ, k, box, x, y) && y > box.y1
    ensures KineticUpTo(pending, store, occ, k, box, x + 1, box.y0)
  {
    assert forall cx, cy | InBox(box, cx, cy) :: Before(cx, cy, x, y) == Before(cx, cy, x + 1, box.y0);
  }

  /** A column holding no tiles adds nothing to check. */
  lemma KineticEmptyColumn(pending: Pending, store: Store, occ: Occupancy, k: BodyId, box: TileBox, x: int)
    requires KineticUpTo(pending, store, occ, k, box, x, box.y0) && x !in occ
    ensures KineticUpTo(pending, store, occ, k, box, x + 1, box.y0)
  {
    forall cx, cy, o | InBox(box, cx, cy) && Before(cx, cy, x + 1, box.y0) && o in Occupants(occ, cx, cy)
      ensures KineticRegistered(pending, store, o, k)
    {
      assert cx != x;
    }
  }

  /**
    The level check of `id` is complete: it occupies every tile of `box`,
    and every tile of `box` holding a level body it intersects is listed.
  */
  ghost predicate LevelChecked(occ: Occupancy, pending: Pending, store: Store, grid: array2<Option<BodyId>>, id: BodyId, box: TileBox)
    reads grid
  {
    forall x, y | InBox(box, x, y) :: id in Occupants(occ, x, y) && TileRegistered(pending, store, grid, id, x, y)
  }

  /** The kinetic check of `k` is complete: every body occupying a tile of `box` that intersects `k` lists it. */
  ghost predicate KineticChecked(occ: Occupancy, pending: Pending, store: Store, k: BodyId, box: TileBox)
  {
    forall x, y, o | InBox(box, x, y) && o in Occupants(occ, x, y) :: KineticRegistered(pending, store, o, k)
  }

  /** A complete level check stays complete while tiles only gain occupants and records only grow. */
  lemma LevelCheckedGrows(occ: Occupancy, occ': Occupancy, pending: Pending, pending': Pending, store: Store,
                          grid: array2<Option<BodyId>>, id: BodyId, box: TileBox)
    requires LevelChecked(occ, pending, store, grid, id, box)
    requires forall x, y :: Occupants(occ, x, y) <= Occupants(occ', x, y)
    requires Extends(pending, pending')
    ensures LevelChecked(occ', pending', store, grid, id, box)
  {
    forall x, y | InBox(box, x, y)
      ensures id in Occupants(occ', x, y) && TileRegistered(pending', store, grid, id, x, y)
    {
      assert Occupants(occ, x, y) <= Occupants(occ', x, y);
      if OnGrid(grid, x, y) && grid[x, y].Some? && id in store && grid[x, y].value in store
        && Intersection(store[id].aabb, store[grid[x, y].value].aabb).Some? {
        ListsGrow(pending, pending', id, grid[x, y].value);
      }
    }
  }

  /** A complete kinetic check stays complete while records only grow. */
  lemma KineticCheckedGrows(occ: Occupancy, pending: Pending, pending': Pending, store: Store, k: BodyId, box: TileBox)
    requires KineticChecked(occ, pending, store, k, box)
    requires Extends(pending, pending')
    ensures KineticChecked(occ, pending', store, k, box)
  {
    forall x, y, o | InBox(box, x, y) && o in Occupants(occ, x, y)
      ensures KineticRegistered(pending', store, o, k)
    {
      assert KineticRegistered(pending, store, o, k);
      if o in store && k in store && Intersection(store[o].aabb, store[k].aabb).Some? {
        ListsGrow(pending, pending', o, k);
      }
    }
  }

  /**
    A step changes no inactive body and moves no static body, unless a
    listed body carries it: the movement phase leaves them alone, and the
    broad phase gives them no resolution.
  */
  lemma StepLeavesAlone(start: Store, moved: Store, pending: Pending, final: Store,
                        ids: seq<BodyId>, gravity: Point, delta: real, hooks: Hooks)
    requires moved == MovePhase(start, ids, gravity, delta, hooks)
    requires KeysCollide(pending, moved)
    requires final.Keys == moved.Keys
    requires forall j | j in moved && j !in pending :: final[j] == moved[j]
    ensures forall j | j in start && !start[j].active && !CarriedBy(start, ids, j) :: final[j] == start[j]
    ensures forall j | j in start && start[j].props.bodyType == Static && !CarriedBy(start, ids, j) ::
      final[j].aabb == start[j].aabb
  {
    MovePhaseKept(start, ids, gravity, delta, hooks);
    forall j | j in start && !CarriedBy(start, ids, j)
      ensures !start[j].active ==> final[j] == start[j]
      ensures start[j].props.bodyType == Static ==> final[j].aabb == start[j].aabb
    {
      MovePhaseLeavesAlone(start, ids, gravity, delta, hooks, j);
      assert !Collides(moved[j]) ==> j !in pending;
    }
  }

  /**
    Progress of the resolution phase: the bodies in `solutions` have had
    the strategy's solution (chosen on the store as it was then, `seen`)
    applied once; every other body is as it was.
  */
  ghost predicate ResolvedSoFar(start: Store, pending: Pending, store: Store, solutions: map<BodyId, Solution>,
                                seen: map<BodyId, Store>, hooks: Hooks, gravity: Point)
  {
    && store.Keys == start.Keys
    && (forall j | j in start && j !in solutions :: store[j] == start[j])
    && (forall j | j in solutions ::
          && j in start && j in pending && j in seen
          && solutions[j] == hooks.satisfy(seen[j], j, pending[j])
          && store[j] == ApplyResolution(start[j], solutions[j], gravity))
  }

  lemma ResolveOne(start: Store, pending: Pending, store: Store, solutions: map<BodyId, Solution>,
                   seen: map<BodyId, Store>, hooks: Hooks, gravity: Point, b: BodyId)
    requires ResolvedSoFar(start, pending, store, solutions, seen, hooks, gravity)
    requires b in start && b in pending && b !in solutions
    ensures var solution := hooks.satisfy(store, b, pending[b]);
      ResolvedSoFar(start, pending, store[b := ApplyResolution(store[b], solution, gravity)],
                    solutions[b := solution], seen[b := store], hooks, gravity)
  {
  }

  class BitWorld {
    /** Time handed to `Step` that has not been stepped yet. */
    var extraStepTime: real
    var tileSize: int
    var gridOffset: Option<Offset>
    var gridObjects: array2?<Option<BodyId>>
    /** The bodies taking part in the simulation, in order. */
    var bodies: seq<BodyId>
    /** Every body ever created, by handle. */
    var store: Store
    /** The next unused handle. */
    var nextId: nat
    var occupiedSpaces: Occupancy
    var pendingResolutions: Pending
    var gravity: Point
    var pendingAdds: seq<BodyId>
    var pendingRemoves: seq<BodyId>

    /** Handles are allocated in order, every tile's body exists, and no resolution is left between steps. */
    predicate Valid()
      reads this, gridObjects
    {
      && IdsBelow(store, nextId)
      && (gridObjects != null ==> TilesIn(gridObjects, store))
      && pendingResolutions == map[]
    }

    /** A level has been set: a positive tile size, a grid offset and a grid. */
    predicate Configured()
      reads this
    {
      tileSize > 0 && gridOffset.Some? && gridObjects != null
    }

    constructor ()
      ensures Valid() && !Configured()
      ensures bodies == [] && pendingAdds == [] && pendingRemoves == [] && store == map[]
      ensures occupiedSpaces == map[] && pendingResolutions == map[]
      ensures gravity == Origin && extraStepTime == 0.0
    {
      extraStepTime := 0.0;
      tileSize := 0;
      gridOffset := None;
      gridObjects := null;
      bodies := [];
      store := map[];
      nextId := 0;
      occupiedSpaces := map[];
      pendingResolutions := map[];
      gravity := Origin;
      pendingAdds := [];
      pendingRemoves := [];
    }

    // -------------------------------------------------------------------
    // Configuration
    // -------------------------------------------------------------------

    method SetGravity(x: real, y: real)
      modifies this`gravity
      ensures gravity == Point(x, y)
    {
      gravity := Point(x, y);
    }

    method SetTileSize(size: int)
      modifies this`tileSize
      ensures tileSize == size
    {
      tileSize := size;
    }

    method SetGridOffset(offset: Offset)
      modifies this`gridOffset
      ensures gridOffset == Some(offset)
    {
      gridOffset := Some(offset);
    }

    /**
      Builds the tile grid from a level's tiles: column `x`, row `y` holds
      the body of tile `grid[x][y]`, or none.  The grid is as wide as the
      first column is tall, so no column may be shorter than the first.
    */
    method ParseGrid(grid: seq<seq<Option<BodyId>>>)
      requires |grid| > 0 && forall x | 0 <= x < |grid| :: |grid[x]| >= |grid[0]|
      requires forall x, y | 0 <= x < |grid| && 0 <= y < |grid[0]| && grid[x][y].Some? :: grid[x][y].value in store
      requires Valid()
      modifies this`gridObjects
      ensures Valid()
      ensures fresh(gridObjects)
      ensures gridObjects.Length0 == |grid| && gridObjects.Length1 == |grid[0]|
      ensures forall x, y | 0 <= x < |grid| && 0 <= y < |grid[0]| :: gridObjects[x, y] == grid[x][y]
    {
      var cells := new Option<BodyId>[|grid|, |grid[0]|]((x, y) => None);
      for x := 0 to |grid|
        invariant forall cx, cy | 0 <= cx < x && 0 <= cy < |grid[0]| :: cells[cx, cy] == grid[cx][cy]
        invariant forall cx, cy | x <= cx < |grid| && 0 <= cy < |grid[0]| :: cells[cx, cy] == None
      {
        for y := 0 to |grid[0]|
          invariant forall cx, cy | 0 <= cx < x && 0 <= cy < |grid[0]| :: cells[cx, cy] == grid[cx][cy]
          invariant forall cy | 0 <= cy < y :: cells[x, cy] == grid[x][cy]
          invariant forall cy | y <= cy < |grid[0]| :: cells[x, cy] == None
          invariant forall cx, cy | x < cx < |grid| && 0 <= cy < |grid[0]| :: cells[cx, cy] == None
        {
          if grid[x][y].Some? {
            cells[x, y] := grid[x][y];
          }
        }
      }
      gridObjects := cells;
    }

    /** Takes the tile size, grid offset and grid of a level. */
    method SetLevel(level: Level)
      requires |level.gridObjects| > 0
      requires forall x | 0 <= x < |level.gridObjects| :: |level.gridObjects[x]| >= |level.gridObjects[0]|
      requires forall x, y | 0 <= x < |level.gridObjects| && 0 <= y < |level.gridObjects[0]| && level.gridObjects[x][y].Some? ::
        level.gridObjects[x][y].value in store
      requires Valid()
      modifies this`tileSize, this`gridOffset, this`gridObjects
      ensures Valid()
      ensures tileSize == level.tileSize && gridOffset == Some(level.gridOffset)
      ensures fresh(gridObjects)
      ensures gridObjects.Length0 == |level.gridObjects| && gridObjects.Length1 == |level.gridObjects[0]|
      ensures forall x, y | 0 <= x < gridObjects.Length0 && 0 <= y < gridObjects.Length1 :: gridObjects[x, y] == level.gridObjects[x][y]
    {
      tileSize := level.tileSize;
      gridOffset := Some(level.gridOffset);
      ParseGrid(level.gridObjects);
    }

    // -------------------------------------------------------------------
    // Staged lifecycle
    // -------------------------------------------------------------------

    /** Queues a body to join the simulation at the start of the next step. */
    method AddBody(id: BodyId)
      modifies this`pendingAdds
      ensures pendingAdds == old(pendingAdds) + [id]
    {
      pendingAdds := pendingAdds + [id];
    }

    /** Queues a body to leave the simulation at the start of the next step. */
    method RemoveBody(id: BodyId)
      modifies this`pendingRemoves
      ensures pendingRemoves == old(pendingRemoves) + [id]
    {
      pendingRemoves := pendingRemoves + [id];
    }

    /** Queues the replacement of every current body by `others`. */
    method SetObjects(others: seq<BodyId>)
      modifies this`pendingAdds, this`pendingRemoves
      ensures pendingRemoves == old(pendingRemoves) + bodies
      ensures pendingAdds == old(pendingAdds) + others
    {
      pendingRemoves := pendingRemoves + bodies;
      pendingAdds := pendingAdds + others;
    }

    /**
      Creates a body with a normalised rectangle and its own copy of the
      properties, and queues it to join.
    */
    method CreateBody(x: real, y: real, width: real, height: real, props: BodyProps) returns (id: BodyId)
      requires Valid()
      modifies this`store, this`nextId, this`pendingAdds
      ensures Valid()
      ensures id !in old(store) && store == old(store)[id := NewBody(Normalize(x, y, width, height), props)]
      ensures pendingAdds == old(pendingAdds) + [id]
    {
      id := nextId;
      store := store[id := NewBody(Normalize(x, y, width, height), props)];
      nextId := nextId + 1;
      AddBody(id);
    }

    /** The rectangle form of `CreateBody`. */
    method CreateBodyFrom(rect: Rect, props: BodyProps) returns (id: BodyId)
      requires Valid()
      modifies this`store, this`nextId, this`pendingAdds
      ensures Valid()
      ensures id !in old(store) && store == old(store)[id := NewBody(Normalize(rect.x, rect.y, rect.width, rect.height), props)]
      ensures pendingAdds == old(pendingAdds) + [id]
    {
      id := CreateBody(rect.x, rect.y, rect.width, rect.height, props);
    }

    // -------------------------------------------------------------------
    // Stepping
    // -------------------------------------------------------------------

    /**
      Runs as many whole steps as the time given plus the time left over
      allows, keeping the rest for the next call.  A remainder of exactly
      one step is kept, not stepped.
    */
    method Step(delta: real, hooks: Hooks) returns (stepped: bool, ghost steps: nat)
      requires Valid() && Configured()
      modifies this`extraStepTime, this`bodies, this`pendingAdds, this`pendingRemoves, this`occupiedSpaces, this`store, this`pendingResolutions
      ensures Valid() && Configured()
      ensures stepped <==> delta + old(extraStepTime) > StepSize
      ensures stepped <==> steps > 0
      ensures steps as real * StepSize + extraStepTime == delta + old(extraStepTime)
      ensures extraStepTime <= StepSize
      ensures stepped ==> extraStepTime > 0.0
    {
      var d := delta + extraStepTime;
      stepped := false;
      steps := 0;
      while d > StepSize
        invariant Valid() && Configured()
        invariant steps as real * StepSize + d == delta + old(extraStepTime)
        invariant stepped <==> steps > 0
        invariant stepped ==> d > 0.0
        invariant !stepped ==> d == delta + old(extraStepTime)
        decreases (d * 120.0).Floor
      {
        stepped := true;
        InternalStep(StepSize, hooks);
        assert (d - StepSize) * 120.0 == d * 120.0 - 1.0;
        d := d - StepSize;
        steps := steps + 1;
      }
      extraStepTime := d;
    }

    /**
      One step of `delta` seconds: the queued removals, then the queued
      additions, then movement, the level and kinetic collision checks,
      and the resolutions.
    */
    method InternalStep(delta: real, hooks: Hooks)
      requires Valid() && Configured()
      modifies this`bodies, this`pendingAdds, this`pendingRemoves, this`occupiedSpaces, this`store, this`pendingResolutions
      ensures Valid() && Configured()
      ensures store.Keys == old(store.Keys)
      ensures delta <= 0.0 ==>
        store == old(store) && bodies == old(bodies) && pendingAdds == old(pendingAdds) && pendingRemoves == old(pendingRemoves)
        && occupiedSpaces == old(occupiedSpaces) && pendingResolutions == old(pendingResolutions)
      ensures delta > 0.0 ==>
        && bodies == Without(old(bodies), old(pendingRemoves)) + old(pendingAdds)
        && pendingAdds == [] && pendingRemoves == []
      ensures delta > 0.0 ==> forall j | j in old(store) && !old(store)[j].active && !CarriedBy(old(store), bodies, j) ::
        store[j] == old(store)[j]
      ensures delta > 0.0 ==> forall j | j in old(store) && old(store)[j].props.bodyType == Static && !CarriedBy(old(store), bodies, j) ::
        store[j].aabb == old(store)[j].aabb
    {
      if delta <= 0.0 {
        return;
      }
      TakeInPendingBodies();
      occupiedSpaces := map[];
      StepBodies(delta, hooks);
    }

    /**
      The phases of a step after the lifecycle queues: movement, the level
      and kinetic collision checks from empty tiles, and the resolutions.
    */
    method StepBodies(delta: real, hooks: Hooks)
      requires Valid() && Configured() && occupiedSpaces == map[]
      modifies this`occupiedSpaces, this`store, this`pendingResolutions
      ensures Valid()
      ensures store.Keys == old(store.Keys)
      ensures forall j | j in old(store) && !old(store)[j].active && !CarriedBy(old(store), bodies, j) ::
        store[j] == old(store)[j]
      ensures forall j | j in old(store) && old(store)[j].props.bodyType == Static && !CarriedBy(old(store), bodies, j) ::
        store[j].aabb == old(store)[j].aabb
    {
      ghost var start := store;
      MoveBodies(delta, hooks);
      BroadPhase();
      ghost var moved, pending := store, pendingResolutions;
      ghost var solutions, seen := ResolveAndApplyPendingResolutions(hooks);
      StepLeavesAlone(start, moved, pending, store, bodies, gravity, delta, hooks);
      SameHandles(gridObjects, start, store, nextId);
    }

    /** Drops the queued removals, then appends the queued additions; both queues end empty. */
    method TakeInPendingBodies()
      modifies this`bodies, this`pendingAdds, this`pendingRemoves
      ensures bodies == Without(old(bodies), old(pendingRemoves)) + old(pendingAdds)
      ensures pendingAdds == [] && pendingRemoves == []
    {
      bodies := Without(bodies, pendingRemoves);
      pendingRemoves := [];
      bodies := bodies + pendingAdds;
      pendingAdds := [];
    }

    /**
      Level checks for every active dynamic body, then kinetic checks for
      every active kinetic body.  Afterwards every listed active dynamic
      body occupies its tiles and lists each level body it intersects there,
      and every occupant intersecting a listed active kinetic body lists it.
    */
    method BroadPhase()
      requires Configured() && Valid'() && CollidersOnly()
      modifies this`occupiedSpaces, this`pendingResolutions
      ensures Valid'() && CollidersOnly()
      ensures forall i | 0 <= i < |bodies| && bodies[i] in store && Collides(store[bodies[i]]) ::
        LevelChecked(occupiedSpaces, pendingResolutions, store, gridObjects, bodies[i], BoxOfBody(bodies[i]))
      ensures forall i | 0 <= i < |bodies| && bodies[i] in store && store[bodies[i]].active && store[bodies[i]].props.bodyType == Kinetic ::
        KineticChecked(occupiedSpaces, pendingResolutions, store, bodies[i], BoxOfBody(bodies[i]))
    {
      for i := 0 to |bodies|
        invariant Valid'() && CollidersOnly()
        invariant forall j | 0 <= j < i && bodies[j] in store && Collides(store[bodies[j]]) ::
          LevelChecked(occupiedSpaces, pendingResolutions, store, gridObjects, bodies[j], BoxOfBody(bodies[j]))
      {
        var id := bodies[i];
        if id in store && Collides(store[id]) {
          ghost var occ, pending := occupiedSpaces, pendingResolutions;
          BuildLevelCollisions(id);
          forall j | 0 <= j < i && bodies[j] in store && Collides(store[bodies[j]])
            ensures LevelChecked(occupiedSpaces, pendingResolutions, store, gridObjects, bodies[j], BoxOfBody(bodies[j]))
          {
            LevelCheckedGrows(occ, occupiedSpaces, pending, pendingResolutions, store, gridObjects, bodies[j], BoxOfBody(bodies[j]));
          }
        }
      }
      for i := 0 to |bodies|
        invariant Valid'() && CollidersOnly()
        invariant forall j | 0 <= j < |bodies| && bodies[j] in store && Collides(store[bodies[j]]) ::
          LevelChecked(occupiedSpaces, pendingResolutions, store, gridObjects, bodies[j], BoxOfBody(bodies[j]))
        invariant forall j | 0 <= j < i && bodies[j] in store && store[bodies[j]].active && store[bodies[j]].props.bodyType == Kinetic ::
          KineticChecked(occupiedSpaces, pendingResolutions, store, bodies[j], BoxOfBody(bodies[j]))
      {
        var id := bodies[i];
        if id in store && store[id].active && store[id].props.bodyType == Kinetic {
          ghost var pending := pendingResolutions;
          BuildKineticCollections(id);
          forall j | 0 <= j < |bodies| && bodies[j] in store && Collides(store[bodies[j]])
            ensures LevelChecked(occupiedSpaces, pendingResolutions, store, gridObjects, bodies[j], BoxOfBody(bodies[j]))
          {
            LevelCheckedGrows(occupiedSpaces, occupiedSpaces, pending, pendingResolutions, store, gridObjects, bodies[j], BoxOfBody(bodies[j]));
          }
          forall j | 0 <= j < i && bodies[j] in store && store[bodies[j]].active && store[bodies[j]].props.bodyType == Kinetic
            ensures KineticChecked(occupiedSpaces, pendingResolutions, store, bodies[j], BoxOfBody(bodies[j]))
          {
            KineticCheckedGrows(occupiedSpaces, pending, pendingResolutions, store, bodies[j], BoxOfBody(bodies[j]));
          }
        }
      }
    }

    /** `Valid` during a step, when resolutions may be pending: handles and tiles as always, and every record sound. */
    predicate Valid'()
      reads this, gridObjects
    {
      && IdsBelow(store, nextId)
      && (gridObjects != null ==> TilesIn(gridObjects, store))
      && NoDuplicates(pendingResolutions) && Sound(store, pendingResolutions)
    }

    /** Only active dynamic bodies are registered in tiles or have resolutions pending. */
    ghost predicate CollidersOnly()
      reads this
    {
      OccupantsCollide(occupiedSpaces, store) && KeysCollide(pendingResolutions, store)
    }

    // -------------------------------------------------------------------
    // Movement
    // -------------------------------------------------------------------

    /** Moves every listed body in turn. */
    method MoveBodies(delta: real, hooks: Hooks)
      modifies this`store
      ensures store == MovePhase(old(store), bodies, gravity, delta, hooks)
    {
      for i := 0 to |bodies|
        invariant store == MovePhase(old(store), bodies[..i], gravity, delta, hooks)
      {
        assert bodies[..i + 1][..i] == bodies[..i];
        MoveBody(bodies[i], delta, hooks);
      }
      assert bodies[..|bodies|] == bodies;
    }

    /**
      Moves one body: gravity for a gravitational dynamic body, then its
      controller, then the move of a non-static body, which a kinetic body
      passes on to its riders before letting them go.  An active body ends
      ungrounded.
    */
    method MoveBody(id: BodyId, delta: real, hooks: Hooks)
      modifies this`store
      ensures store == MoveOne(old(store), id, gravity, delta, hooks)
    {
      if id !in store || !store[id].active {
        return;
      }
      var b := store[id];
      if b.props.bodyType == Dynamic && b.props.gravitational {
        b := b.(velocity := Add(b.velocity, Scale(gravity, delta)));
      }
      if b.hasController {
        b := b.(velocity := hooks.control(id, b, delta));
      }
      if b.props.bodyType != Static {
        b := b.(lastAttempt := Scale(b.velocity, delta));
        b := b.(aabb := TranslatedBy(b.aabb, b.lastAttempt));
      }
      assert b == Moved(id, old(store)[id], gravity, delta, hooks);
      store := store[id := b];
      var kinetic := b.props.bodyType == Kinetic;
      if kinetic {
        CarryRiders(b.children, b.lastAttempt, hooks);
      }
      // a kinetic body lets go of its riders; every moved body starts ungrounded
      store := store[id := store[id].(children := if kinetic then [] else store[id].children, grounded := false)];
    }

    /** Carries each rider by the shrunk move and lets it go. */
    method CarryRiders(riders: seq<BodyId>, attempt: Point, hooks: Hooks)
      modifies this`store
      ensures store == Carry(old(store), riders, attempt, hooks.shrink)
    {
      for i := 0 to |riders|
        invariant store == Carry(old(store), riders[..i], attempt, hooks.shrink)
      {
        assert riders[..i + 1][..i] == riders[..i];
        var c := riders[i];
        if c in store {
          var child := store[c];
          store := store[c := child.(aabb := TranslatedBy(child.aabb, hooks.shrink(attempt)),
                                     lastAttempt := Add(child.lastAttempt, attempt),
                                     parent := None)];
        }
      }
      assert riders[..|riders|] == riders;
    }

    // -------------------------------------------------------------------
    // Broad phase
    // -------------------------------------------------------------------

    /** The tiles a body registers in. */
    function BoxOfBody(id: BodyId): TileBox
      requires Configured() && id in store
      reads this
    {
      BoxOf(store[id].aabb, tileSize, gridOffset.value)
    }

    /**
      The check of a collision of `b` against `against`: the record of `b`
      is opened if the two intersect, and the collision is added unless
      `against` is already listed.
    */
    method CheckForNewCollision(b: BodyId, against: BodyId)
      requires b in store && against in store
      modifies this`pendingResolutions
      ensures pendingResolutions == Register(old(pendingResolutions), store, b, against)
    {
      var insec := Intersection(store[b].aabb, store[against].aabb);
      if insec.Some? {
        if b !in pendingResolutions {
          pendingResolutions := pendingResolutions[b := []];
        }
        var collisions := pendingResolutions[b];
        for i := 0 to |collisions|
          invariant forall k | 0 <= k < i :: collisions[k].other != against
        {
          if collisions[i].other == against {
            return;
          }
        }
        pendingResolutions := pendingResolutions[b := collisions + [Collision(insec.value, against)]];
      }
    }

    /**
      One tile of the level broad phase: marks `id` as occupying tile
      (x, y), then checks it against the level body on that tile when the
      tile lies on the grid and holds one.
    */
    method OccupyTile(id: BodyId, x: int, y: int)
      requires gridObjects != null && TilesIn(gridObjects, store) && id in store
      modifies this`occupiedSpaces, this`pendingResolutions
      ensures occupiedSpaces == OccupyCell(old(occupiedSpaces), x, y, id)
      ensures pendingResolutions ==
        if OnGrid(gridObjects, x, y) && gridObjects[x, y].Some? then Register(old(pendingResolutions), store, id, gridObjects[x, y].value)
        else old(pendingResolutions)
    {
      var column := if x in occupiedSpaces then occupiedSpaces[x] else map[];
      if y !in column {
        column := column[y := {}];
      }
      column := column[y := column[y] + {id}];
      occupiedSpaces := occupiedSpaces[x := column];
      if OnGrid(gridObjects, x, y) && gridObjects[x, y].Some? {
        var checkObj := gridObjects[x, y].value;
        CheckForNewCollision(id, checkObj);
      }
    }

    /**
      Registers a dynamic body in every tile of its box and checks it
      against the level tile, if any, on each of those tiles that lies on
      the grid.
    */
    method BuildLevelCollisions(id: BodyId)
      requires Configured() && Valid'() && CollidersOnly()
      requires id in store && Collides(store[id])
      modifies this`occupiedSpaces, this`pendingResolutions
      ensures Valid'() && CollidersOnly()
      ensures forall x, y :: Occupants(occupiedSpaces, x, y) == Occupants(old(occupiedSpaces), x, y) + (if InBox(BoxOfBody(id), x, y) then {id} else {})
      ensures Extends(old(pendingResolutions), pendingResolutions)
      ensures OnlyRecordOf(old(pendingResolutions), pendingResolutions, id)
      ensures forall x, y | InBox(BoxOfBody(id), x, y) :: TileRegistered(pendingResolutions, store, gridObjects, id, x, y)
    {
      var box := BoxOfBody(id);
      var grid := gridObjects;
      ghost var occ0, pending0 := occupiedSpaces, pendingResolutions;
      LevelStart(occupiedSpaces, pendingResolutions, store, grid, id, box);
      var x := box.x0;
      while x <= box.x1
        invariant box.x0 <= x || box.x1 < box.x0
        invariant LevelDone(occ0, pending0, occupiedSpaces, pendingResolutions, store, grid, id, box, x, box.y0)
        decreases box.x1 - x
      {
        if x !in occupiedSpaces {
          LevelOpenColumn(occ0, pending0, occupiedSpaces, pendingResolutions, store, grid, id, box, x);
          occupiedSpaces := occupiedSpaces[x := map[]];
        }
        var y := box.y0;
        while y <= box.y1
          invariant box.y0 <= y
          invariant x in occupiedSpaces
          invariant LevelDone(occ0, pending0, occupiedSpaces, pendingResolutions, store, grid, id, box, x, y)
          decreases box.y1 - y
        {
          ghost var prev := occupiedSpaces;
          ghost var before := pendingResolutions;
          OccupyTile(id, x, y);
          LevelCell(occ0, pending0, prev, before, pendingResolutions, store, grid, id, box, x, y);
          y := y + 1;
        }
        LevelColumn(occ0, pending0, occupiedSpaces, pendingResolutions, store, grid, id, box, x, y);
        x := x + 1;
      }
      LevelFinish(occ0, pending0, occupiedSpaces, pendingResolutions, store, grid, id, box, x);
    }

    /**
      Checks a kinetic body against every body registered in the tiles of
      its box.  Nothing is registered: tiles no dynamic body occupies are
      passed over.
    */
    method BuildKineticCollections(k: BodyId)
      requires Configured() && Valid'() && CollidersOnly()
      requires k in store
      modifies this`pendingResolutions
      ensures Valid'() && CollidersOnly()
      ensures Extends(old(pendingResolutions), pendingResolutions)
      ensures NewAgainst(old(pendingResolutions), pendingResolutions, k)
      ensures forall x, y, o | InBox(BoxOfBody(k), x, y) && o in Occupants(occupiedSpaces, x, y) ::
        KineticRegistered(pendingResolutions, store, o, k)
    {
      var box := BoxOfBody(k);
      var x := box.x0;
      while x <= box.x1
        invariant box.x0 <= x || box.x1 < box.x0
        invariant NoDuplicates(pendingResolutions) && Sound(store, pendingResolutions)
        invariant KeysCollide(pendingResolutions, store)
        invariant Extends(old(pendingResolutions), pendingResolutions)
        invariant NewAgainst(old(pendingResolutions), pendingResolutions, k)
        invariant KineticUpTo(pendingResolutions, store, occupiedSpaces, k, box, x, box.y0)
        decreases box.x1 - x
      {
        if x !in occupiedSpaces {
          KineticEmptyColumn(pendingResolutions, store, occupiedSpaces, k, box, x);
        } else {
          var y := box.y0;
          while y <= box.y1
            invariant box.y0 <= y
            invariant NoDuplicates(pendingResolutions) && Sound(store, pendingResolutions)
            invariant KeysCollide(pendingResolutions, store)
            invariant Extends(old(pendingResolutions), pendingResolutions)
            invariant NewAgainst(old(pendingResolutions), pendingResolutions, k)
            invariant KineticUpTo(pendingResolutions, store, occupiedSpaces, k, box, x, y)
            decreases box.y1 - y
          {
            if y in occupiedSpaces[x] {
              var todo := occupiedSpaces[x][y];
              while todo != {}
                invariant todo <= Occupants(occupiedSpaces, x, y)
                invariant NoDuplicates(pendingResolutions) && Sound(store, pendingResolutions)
                invariant KeysCollide(pendingResolutions, store)
                invariant Extends(old(pendingResolutions), pendingResolutions)
                invariant NewAgainst(old(pendingResolutions), pendingResolutions, k)
                invariant KineticUpTo(pendingResolutions, store, occupiedSpaces, k, box, x, y)
                invariant forall o | o in Occupants(occupiedSpaces, x, y) - todo :: KineticRegistered(pendingResolutions, store, o, k)
                decreases todo
              {
                var o :| o in todo;
                assert o in store && Collides(store[o]);
                ghost var before := pendingResolutions;
                CheckForNewCollision(o, k);
                RegisterExtends(before, store, o, k);
                RegisterAgainst(old(pendingResolutions), before, store, o, k);
                KineticGrow(before, pendingResolutions, store, occupiedSpaces, k, box, x, y, Occupants(occupiedSpaces, x, y) - todo);
                todo := todo - {o};
              }
            }
            KineticStep(pendingResolutions, store, occupiedSpaces, k, box, x, y);
            y := y + 1;
          }
          KineticColumnDone(pendingResolutions, store, occupiedSpaces, k, box, x, y);
        }
        x := x + 1;
      }
    }

    // -------------------------------------------------------------------
    // Resolution
    // -------------------------------------------------------------------

    /** Applies one body's solution: the engine's in-place version of `ApplyResolution`. */
    method ApplyResolutionTo(id: BodyId, solution: Solution)
      requires id in store
      modifies this`store
      ensures store == old(store)[id := ApplyResolution(old(store)[id], solution, gravity)]
    {
      var b := store[id];
      var r := solution.resolution;
      if r.x != 0.0 || r.y != 0.0 {
        b := b.(aabb := TranslatedBy(b.aabb, r));
        if Abs(gravity.y - r.y) > Abs(gravity.y) {
          b := b.(grounded := true);
        }
      }
      if solution.haltX {
        b := b.(velocity := b.velocity.(x := 0.0));
      }
      if solution.haltY {
        b := b.(velocity := b.velocity.(y := 0.0));
      }
      b := b.(lastResolution := r);
      store := store[id := b];
    }

    /**
      Lets the strategy solve each pending record in turn (in no particular
      order), applies each solution to its body, and drops the records.
      `seen[b]` is the store as it stood when `b`'s turn came.
    */
    method ResolveAndApplyPendingResolutions(hooks: Hooks)
      returns (ghost solutions: map<BodyId, Solution>, ghost seen: map<BodyId, Store>)
      requires forall b | b in pendingResolutions :: b in store
      modifies this`store, this`pendingResolutions
      ensures pendingResolutions == map[]
      ensures solutions.Keys == seen.Keys == old(pendingResolutions).Keys
      ensures ResolvedSoFar(old(store), old(pendingResolutions), store, solutions, seen, hooks, gravity)
    {
      ghost var start, pending := store, pendingResolutions;
      var todo := pendingResolutions.Keys;
      solutions, seen := map[], map[];
      while todo != {}
        invariant todo <= pending.Keys
        invariant pendingResolutions == pending
        invariant solutions.Keys == seen.Keys == pending.Keys - todo
        invariant ResolvedSoFar(start, pending, store, solutions, seen, hooks, gravity)
        decreases todo
      {
        var b :| b in todo;
        var solution := hooks.satisfy(store, b, pendingResolutions[b]);
        ResolveOne(start, pending, store, solutions, seen, hooks, gravity, b);
        seen := seen[b := store];
        ApplyResolutionTo(b, solution);
        solutions := solutions[b := solution];
        todo := todo - {b};
      }
      pendingResolutions := map[];
    }
  }
}

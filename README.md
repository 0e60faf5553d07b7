# Jump: a verified model of the collision and stepping core

Jump is a 2D platformer pseudo-physics library. This project models its
core in Dafny and proves properties of the model:

- **Rectangle geometry** (`Geom`).
  - `BitRectangle` is a mutable rectangle whose corner is a point object.
  - Its constructors normalise negative sizes.
  - It translates in place and copies into fresh objects.
  - It has inclusive point and rectangle containment, a centre, and its four projection points.
- **The separating-axis narrow phase** (`Sat`).
  - It builds candidate axes from the edges of two shapes.
  - It projects both shapes onto every axis and takes the signed overlap of each pair of projections.
  - The result is a bundle of candidate manifolds, or none when some axis separates the shapes.
  - It finds the solution for one body against another on a translated copy.
  - It includes the tile direction-permission mask test.
- **The per-body resolution record** (`Resolution`). The strategy chooses a resolved position, and the record turns it into the displacement from the body's corner.
- **The simulation world** (`Bodies` for the body values and what a step does to them, `World` for the `BitWorld` class).
  - Time runs in fixed steps of 1/120 s, and the remainder is carried over.
  - Additions and removals are queued and applied at the start of the next step.
  - The movement phase applies gravity, the controller, the move, and the carrying of riders by kinetic bodies.
  - The tile-grid broad phase registers dynamic bodies in tiles, checks them against level tiles, and checks kinetic bodies against the registered bodies.
  - Collision registration keeps no duplicates.
  - Resolutions are applied with velocity halting and the grounded flag.
- **The example game's shell controller** (`Shell`): a patrol state machine that turns round when the last resolution pushed it back.

Inside the world, bodies are values in a store indexed by handle
(`map<BodyId, Body>`). The body lists, the tile grid, the occupancy map
and the collision records refer to bodies by handle, the way the engine
shares object references. `BitWorld` is a class. Its fields are the
engine's fields, and its methods reassign them through the same loops
the engine runs. Each method is proved against a specification function
on values (`MovePhase`, `Register`, `ApplyResolution`, ...), and the
properties of those functions are proved as lemmas.

These collaborators are called by the core but are not part of it:

- The controller update, the rider-carry shrink and the resolution strategy are function-typed parameters (`Bodies.Hooks`, `Sat.Solver`, `Resolution.Satisfier`). Each can only return a value: the controller a velocity, the shrink a displacement, the solver a manifold, and the strategy a position (in `Resolution`) or a solution (in the world). None of them can change the world or other bodies; "## Left out" says what this excludes.
- The intersection helper is given its assumed contract as a definition (`Geom.Intersection`): it is `None` exactly when two rectangles share no region of positive area.
- The on-grid helper is given its assumed contract as a definition (`World.OnGrid`): a cell is on the grid when it is within the grid's bounds.
- The tile arithmetic (floor division by the tile size, minus the grid offset) is written out in `Bodies.Tile`.

Coordinates, velocities and time are `real`. The shell's `int` speed is
a 32-bit integer, and its negation wraps round.

## Model

| member | source | states |
|---|---|---|
| Geom.Normalize | jump-core/src/main/java/com/bitdecay/jump/geom/BitRectangle.java:16-30 | the result has non-negative width and height, covers exactly [min(x, x+w), max(x, x+w)] and [min(y, y+h), max(y, y+h)], and equals the input when the sizes are already non-negative |
| Geom.BitRectangle.constructor | jump-core/src/main/java/com/bitdecay/jump/geom/BitRectangle.java:16-30 | the in-place normalisation of a new rectangle (with a fresh corner) leaves exactly the normalised value |
| Geom.BitRectangle.Copy | jump-core/src/main/java/com/bitdecay/jump/geom/BitRectangle.java:12-14 | the copy constructor gives a fresh corner holding the other rectangle's normalised value |
| Geom.Span | jump-core/src/main/java/com/bitdecay/jump/geom/BitRectangle.java:36-38 | the two-point rectangle is normalised and spans from the smaller to the larger coordinate of the two points on each axis |
| Geom.SpanSymmetric | jump-core/src/main/java/com/bitdecay/jump/geom/BitRectangle.java:36-38 | the two-point rectangle does not depend on the order of the points |
| Geom.SpanContainsEnds | jump-core/src/main/java/com/bitdecay/jump/geom/BitRectangle.java:36-38 | both points lie in the two-point rectangle |
| Geom.BitRectangle.FromPoints | jump-core/src/main/java/com/bitdecay/jump/geom/BitRectangle.java:36-38 | the two-point constructor builds a fresh rectangle with the spanned value |
| Geom.Centered | jump-core/src/main/java/com/bitdecay/jump/geom/BitRectangle.java:40-42 | the centre/size rectangle is normalised |
| Geom.CenterOfCentered | jump-core/src/main/java/com/bitdecay/jump/geom/BitRectangle.java:80-82 | the centre of the centre/size rectangle is the given centre, whatever the signs of the sizes |
| Geom.BitRectangle.FromCenter | jump-core/src/main/java/com/bitdecay/jump/geom/BitRectangle.java:40-42 | the centre/size constructor builds a fresh rectangle with the centred value |
| Geom.BitRectangle.Set | jump-core/src/main/java/com/bitdecay/jump/geom/BitRectangle.java:44-48 | the rectangle takes over the other's value and keeps its own corner object |
| Geom.Translated | jump-core/src/main/java/com/bitdecay/jump/geom/BitRectangle.java:74-78 | translation adds (dx, dy) to the corner and keeps width and height |
| Geom.TranslateInverse | jump-core/src/main/java/com/bitdecay/jump/geom/BitRectangle.java:74-78 | translating by (-dx, -dy) after (dx, dy) restores the rectangle |
| Geom.BitRectangle.Translate | jump-core/src/main/java/com/bitdecay/jump/geom/BitRectangle.java:63-78 | the corner moves in place by (dx, dy), and the rectangle itself is returned for chaining |
| Geom.ContainsTranslated | jump-core/src/main/java/com/bitdecay/jump/geom/BitRectangle.java:92-94 | point containment moves with the rectangle |
| Geom.ProjectionPoints | jump-core/src/main/java/com/bitdecay/jump/geom/BitRectangle.java:109-111 | there are four projection points starting at the corner, and each lies in a normalised rectangle (containment is inclusive on all edges) |
| Geom.ContainsRectReflexive | jump-core/src/main/java/com/bitdecay/jump/geom/BitRectangle.java:103-106 | every rectangle contains itself |
| Geom.ContainsRectTransitive | jump-core/src/main/java/com/bitdecay/jump/geom/BitRectangle.java:103-106 | rectangle containment is transitive |
| Geom.ContainsRectCorners | jump-core/src/main/java/com/bitdecay/jump/geom/BitRectangle.java:103-111 | the corners of a contained normalised rectangle are contained points |
| Geom.BitRectangle.CopyOf | jump-core/src/main/java/com/bitdecay/jump/geom/BitRectangle.java:146-148 | the copy is a fresh object with a fresh corner and the normalised value, equal to the original when the original is normalised |
| Geom.TranslatedCopyLeavesOriginal | jump-core/src/main/java/com/bitdecay/jump/collision/SATUtilities.java:57-58 | translating a copy gives the translated value and leaves the original object and its corner unchanged |
| Geom.Intersection | bitDecayJump/src/bitDecayJump/BitWorld.java:240-241 | the assumed intersection contract: present exactly when the rectangles share a region of positive area, and then of positive size and inside both |
| Geom.IntersectionIsLargest | bitDecayJump/src/bitDecayJump/BitWorld.java:240-241 | every rectangle inside both lies in the intersection, and when there is none every such rectangle has no area |
| Geom.IntersectionSymmetric | bitDecayJump/src/bitDecayJump/BitWorld.java:240-241 | intersection does not depend on the order of its arguments |
| Sat.PerpendicularAxis | jump-core/src/main/java/com/bitdecay/jump/collision/SATUtilities.java:80-91 | the corrected per-edge axis: (1,0) for a vertical edge, (0,1) for a horizontal one, and a perpendicular with x-component 1 otherwise |
| Sat.PerpendicularAxisIsPerpendicular | jump-core/src/main/java/com/bitdecay/jump/collision/SATUtilities.java:67-91 | the axis built for an edge is perpendicular to it |
| Sat.AxesArePerpendiculars | jump-core/src/main/java/com/bitdecay/jump/collision/SATUtilities.java:72-94 | with the corrected axes (see Findings), every axis of a shape is perpendicular to one of its edges, and every edge contributes its axis |
| Sat.BuildAxes | jump-core/src/main/java/com/bitdecay/jump/collision/SATUtilities.java:72-94 | the edge-by-edge loop builds exactly the set of corrected per-edge axes (see Findings) |
| Sat.RectEdges | jump-core/src/main/java/com/bitdecay/jump/collision/SATUtilities.java:76-81 | a rectangle's four edges are (w,0), (0,h), (-w,0) and (0,-h) |
| Sat.RectAxes | jump-core/src/main/java/com/bitdecay/jump/collision/SATUtilities.java:72-94 | a rectangle's corrected axes (see Findings) are {(1,0), (0,1)}, or only (1,0) when it has no width (as written the engine gives only (0,1) then) |
| Sat.PositiveRectAxesAsWritten | jump-core/src/main/java/com/bitdecay/jump/collision/SATUtilities.java:82-86 | for a rectangle of positive width and height the axes as the engine builds them are exactly {(1,0), (0,1)}, the same as the corrected axes |
| Sat.ProjectionIsHull | jump-core/src/main/java/com/bitdecay/jump/collision/SATUtilities.java:96-109 | a projection is empty only for no points; otherwise lo <= hi, it bounds every dot product, and both ends are attained |
| Sat.Project | jump-core/src/main/java/com/bitdecay/jump/collision/SATUtilities.java:96-109 | the running minimum/maximum loop computes the projection |
| Sat.RectProjection | jump-core/src/main/java/com/bitdecay/jump/collision/SATUtilities.java:96-109 | projecting a rectangle onto (1,0) gives [x, x+width], and onto (0,1) gives [y, y+height] |
| Sat.LinearOverlap | jump-core/src/main/java/com/bitdecay/jump/collision/SATUtilities.java:111-129 | no overlap exactly when min(ends) - max(starts) <= 0; otherwise the magnitude is that overlap, and it is negative exactly when \|l2.lo - l1.hi\| < \|l1.lo - l2.hi\| (a tie stays positive) |
| Sat.OverlapIffSharedSegment | jump-core/src/main/java/com/bitdecay/jump/collision/SATUtilities.java:111-129 | two intervals overlap exactly when they share a segment of positive length, so touching intervals do not |
| Sat.OverlapSwapped | jump-core/src/main/java/com/bitdecay/jump/collision/SATUtilities.java:111-129 | swapping the intervals keeps whether they overlap, and flips the sign except on a tie |
| Sat.OverlapSeparates | jump-core/src/main/java/com/bitdecay/jump/collision/SATUtilities.java:111-129 | when neither interval lies strictly inside the other, moving the first by the signed overlap separates them |
| Sat.Bundle | jump-core/src/main/java/com/bitdecay/jump/collision/SATUtilities.java:37-55 | no bundle exactly when there are no axes or some axis has no overlap; otherwise exactly one manifold per axis, carrying that axis' overlap |
| Sat.MaybeBuildCollision | jump-core/src/main/java/com/bitdecay/jump/collision/SATUtilities.java:37-55 | the axis loop with its early return computes the bundle, whatever order it takes the axes in |
| Sat.GetCollision | jump-core/src/main/java/com/bitdecay/jump/collision/SATUtilities.java:25-35 | the collision over the union of both shapes' corrected axes (see Findings) |
| Sat.RectCollisionIff | jump-core/src/main/java/com/bitdecay/jump/collision/SATUtilities.java:25-35 | with the corrected axes (see Findings), two normalised rectangles collide exactly when both their x- and y-extents overlap with positive length, that is, exactly when they intersect |
| Sat.RectCollisionSymmetric | jump-core/src/main/java/com/bitdecay/jump/collision/SATUtilities.java:25-35 | with the corrected axes (see Findings), whether two rectangles collide does not depend on argument order |
| Sat.EdgeAxisAsWrittenNotPerpendicular | jump-core/src/main/java/com/bitdecay/jump/collision/SATUtilities.java:82-84 | the engine's axis for a vertical edge is not perpendicular to it |
| Sat.ZeroWidthAxesAsWritten | jump-core/src/main/java/com/bitdecay/jump/collision/SATUtilities.java:72-94 | for a rectangle of no width, the engine's only axis is (0,1) |
| Sat.ZeroWidthCollideAsWritten | jump-core/src/main/java/com/bitdecay/jump/collision/SATUtilities.java:25-35 | with the engine's axes, any two zero-width rectangles whose y-extents overlap collide |
| Sat.ZeroWidthRectsCollideAsWritten | jump-core/src/main/java/com/bitdecay/jump/collision/SATUtilities.java:82-84 | rectangles (0,0,0,10) and (5,0,0,10) collide with the engine's axes, although they do not intersect and do not collide with the corrected axes |
| Sat.CollisionSolution | jump-core/src/main/java/com/bitdecay/jump/collision/SATUtilities.java:57-64 | with the corrected axes (see Findings): the zero manifold when the body, moved by the cumulative resolution, does not intersect the other; otherwise the solver's choice over the (then present) bundle |
| Sat.GetCollisionSolution | jump-core/src/main/java/com/bitdecay/jump/collision/SATUtilities.java:57-64 | computed on a translated copy with the corrected axes (see Findings), it yields that solution |
| Sat.AxisValidIff | jump-core/src/main/java/com/bitdecay/jump/collision/SATUtilities.java:131-143 | an axis is valid exactly when it is the axis of some direction whose bit is clear in the mask |
| Sat.ValidIsCardinal | jump-core/src/main/java/com/bitdecay/jump/collision/SATUtilities.java:131-143 | only the four cardinal axes can be valid |
| Sat.AxisValidPerDirection | jump-core/src/main/java/com/bitdecay/jump/collision/SATUtilities.java:131-143 | a cardinal axis is valid exactly when its own direction's bit is clear, whatever the other bits |
| Resolution.BitResolution.constructor | jump-core/src/main/java/com/bitdecay/jump/collision/BitResolution.java:22-36 | a new record holds a fresh copy of the body's (normalised) rectangle, a zero resolution, no collisions and no lock, and shares no object with the body's rectangle |
| Resolution.BitResolution.Resolve | jump-core/src/main/java/com/bitdecay/jump/collision/BitResolution.java:38-43 | the resolved position is the strategy's choice, body corner + resolution = resolved corner on both axes, and the body and its rectangle do not move |
| Resolution.ResolveInPlace | jump-core/src/main/java/com/bitdecay/jump/collision/BitResolution.java:33-43 | a strategy that keeps the resolved position where it started gives a zero resolution, and the body is unchanged |
| Bodies.Moved | bitDecayJump/src/bitDecayJump/BitWorld.java:113-127 | only velocity, attempt and rectangle change; the velocity is the old one plus gravity * delta for a gravitational dynamic body, then replaced by the controller's when there is one; a static body keeps its rectangle and attempt, any other records velocity * delta as its attempt and moves by exactly that |
| Bodies.Carried | bitDecayJump/src/bitDecayJump/BitWorld.java:129-134 | a carried rider moves by the shrunk attempt, adds the whole attempt to its own, is detached, and changes in nothing else |
| Bodies.CarryFacts | bitDecayJump/src/bitDecayJump/BitWorld.java:128-136 | carrying touches only the riders, each of which ends detached, and keeps the store's handles |
| Bodies.MoveOneFacts | bitDecayJump/src/bitDecayJump/BitWorld.java:112-141 | one body's move changes only that body and its riders, leaves static bodies in place, ungrounds an active body, and empties an active kinetic body's riders |
| Bodies.MovePhaseKept | bitDecayJump/src/bitDecayJump/BitWorld.java:112-141 | the movement phase keeps the handles, every body's activity and properties, and every body's riders, or empties them |
| Bodies.MovePhaseKeepsRiders | bitDecayJump/src/bitDecayJump/BitWorld.java:128-136 | only a listed body's own move can empty its riders |
| Bodies.MovePhaseLeavesAlone | bitDecayJump/src/bitDecayJump/BitWorld.java:112-141 | a body no listed kinetic body carries is untouched when it is inactive or unlisted, and keeps its rectangle when it is static |
| Bodies.MovePhaseActive | bitDecayJump/src/bitDecayJump/BitWorld.java:112-141 | after movement every active listed body is ungrounded, every active listed kinetic body has no riders, and every carried rider is detached |
| Bodies.Register | bitDecayJump/src/bitDecayJump/BitWorld.java:239-254 | nothing changes without an intersection; otherwise `b` has a record that lists `against` once, appended only if it was absent; other records are unchanged, and no-duplicates and soundness are preserved |
| Bodies.RegisterIdempotent | bitDecayJump/src/bitDecayJump/BitWorld.java:239-254 | registering the same pair twice changes nothing the second time |
| Bodies.TileSpanCovers | bitDecayJump/src/bitDecayJump/BitWorld.java:183-189 | every coordinate of a body's extent lies in a tile between the start tile and the start tile plus ceil(size / tileSize) |
| Bodies.ApplyResolution | bitDecayJump/src/bitDecayJump/BitWorld.java:211-229 | the rectangle moves by exactly the resolution, only halted velocity components become 0, grounded is set only by a grounding push and is never cleared, the last resolution is recorded, and nothing else changes |
| Bodies.GroundsUnderDownwardGravity | bitDecayJump/src/bitDecayJump/BitWorld.java:212-219 | under downward gravity a resolution grounds the body exactly when it pushes up, or down by more than twice the gravity |
| Bodies.GroundsWithoutGravity | bitDecayJump/src/bitDecayJump/BitWorld.java:212-219 | with no gravity any vertical push grounds the body, and a purely horizontal one does not |
| World.BoxCovers | bitDecayJump/src/bitDecayJump/BitWorld.java:183-192 | every point of a body's rectangle lies in one of the tiles it registers in |
| World.Without | bitDecayJump/src/bitDecayJump/BitWorld.java:103-104 | removal keeps exactly the bodies not queued for removal, never lengthens the list, and changes nothing when nothing is removed |
| World.WithoutKeepsOrder | bitDecayJump/src/bitDecayJump/BitWorld.java:103-104 | removal keeps the order of what is left: it distributes over concatenation, and a single body is dropped exactly when it is removed |
| World.OccupantsAfterOccupy | bitDecayJump/src/bitDecayJump/BitWorld.java:193-201 | registering a body in a tile adds it to that tile and to no other |
| World.RegisterAgainst | bitDecayJump/src/bitDecayJump/BitWorld.java:176-177 | the kinetic check adds only collisions against the kinetic body |
| World.StepLeavesAlone | bitDecayJump/src/bitDecayJump/BitWorld.java:112-147 | over a whole step, an inactive body no listed body carries is unchanged, and a static one keeps its rectangle |
| World.ResolveOne | bitDecayJump/src/bitDecayJump/BitWorld.java:153-156 | resolving one more record applies that body's solution once and leaves the others as they were |
| World.BitWorld.constructor | bitDecayJump/src/bitDecayJump/BitWorld.java:48-54 | a new world is valid and unconfigured, with empty lists, no bodies, no occupancy, no records, zero gravity and no leftover time |
| World.BitWorld.SetGravity | bitDecayJump/src/bitDecayJump/BitWorld.java:60-63 | sets the gravity and nothing else |
| World.BitWorld.SetTileSize | bitDecayJump/src/bitDecayJump/BitWorld.java:272-274 | sets the tile size and nothing else |
| World.BitWorld.SetGridOffset | bitDecayJump/src/bitDecayJump/BitWorld.java:276-278 | sets the grid offset and nothing else |
| World.BitWorld.ParseGrid | bitDecayJump/src/bitDecayJump/BitWorld.java:290-299 | a fresh grid as wide as the level and as tall as its first column, holding each tile's body or none, with the world still valid |
| World.BitWorld.SetLevel | bitDecayJump/src/bitDecayJump/BitWorld.java:280-284 | takes the level's tile size, grid offset and grid |
| World.BitWorld.AddBody | bitDecayJump/src/bitDecayJump/BitWorld.java:65-67 | queues the body for addition; the body list is not touched |
| World.BitWorld.RemoveBody | bitDecayJump/src/bitDecayJump/BitWorld.java:69-71 | queues the body for removal; the body list is not touched |
| World.BitWorld.SetObjects | bitDecayJump/src/bitDecayJump/BitWorld.java:313-316 | queues every current body for removal and the given ones for addition; the body list is not touched |
| World.BitWorld.CreateBody | bitDecayJump/src/bitDecayJump/BitWorld.java:260-266 | stores a new body under a fresh handle, with the normalised rectangle, its own copy of the properties, at rest, and queues it for addition |
| World.BitWorld.CreateBodyFrom | bitDecayJump/src/bitDecayJump/BitWorld.java:256-258 | the rectangle form creates the same body as the four-number form |
| World.BitWorld.Step | bitDecayJump/src/bitDecayJump/BitWorld.java:80-95 | steps exactly when delta + leftover > STEP_SIZE; time is conserved (steps * STEP_SIZE + new leftover = delta + old leftover); the leftover is at most STEP_SIZE, and positive after a step |
| World.BitWorld.InternalStep | bitDecayJump/src/bitDecayJump/BitWorld.java:97-150 | a non-positive delta changes nothing; otherwise removals are applied before additions, both queues end empty, handles are kept, an inactive body no listed body carries is untouched, such a static body does not move, and no record is left |
| World.BitWorld.StepBodies | bitDecayJump/src/bitDecayJump/BitWorld.java:109-147 | movement, broad phase and resolution keep the handles and the world valid, leave inactive uncarried bodies untouched and static uncarried bodies in place |
| World.BitWorld.TakeInPendingBodies | bitDecayJump/src/bitDecayJump/BitWorld.java:103-107 | the new list is the old one without the removed bodies, followed by the added ones, and both queues are empty |
| World.BitWorld.BroadPhase | bitDecayJump/src/bitDecayJump/BitWorld.java:143-146 | the two broad-phase passes keep every record sound and duplicate-free, and only active dynamic bodies are registered in tiles or have records; every listed active dynamic body occupies every tile of its span and lists each level body it intersects there, and every occupant of a listed active kinetic body's tiles that intersects it lists that body |
| World.BitWorld.MoveBodies | bitDecayJump/src/bitDecayJump/BitWorld.java:112-141 | the movement loop computes the movement phase |
| World.BitWorld.MoveBody | bitDecayJump/src/bitDecayJump/BitWorld.java:113-140 | moving one body in place computes that body's move |
| World.BitWorld.CarryRiders | bitDecayJump/src/bitDecayJump/BitWorld.java:128-136 | the rider loop computes the carry |
| World.BitWorld.CheckForNewCollision | bitDecayJump/src/bitDecayJump/BitWorld.java:239-254 | the check with its early return computes the registration |
| World.BitWorld.OccupyTile | bitDecayJump/src/bitDecayJump/BitWorld.java:196-206 | marks the body in the tile (creating it if need be), and registers it against the tile's body only when the tile is on the grid and holds one |
| World.BitWorld.BuildLevelCollisions | bitDecayJump/src/bitDecayJump/BitWorld.java:183-209 | the body ends registered in exactly the tiles of its box; every tile of the box holding an intersecting level body is listed; only this body's record grows, by appending; records stay sound and duplicate-free |
| World.BitWorld.BuildKineticCollections | bitDecayJump/src/bitDecayJump/BitWorld.java:160-181 | occupancy is untouched; records only grow, only by collisions against the kinetic body; every registered body in its box that intersects it lists it |
| World.BitWorld.ApplyResolutionTo | bitDecayJump/src/bitDecayJump/BitWorld.java:211-229 | applying in place computes the resolution function on that body and changes no other |
| World.BitWorld.ResolveAndApplyPendingResolutions | bitDecayJump/src/bitDecayJump/BitWorld.java:152-158 | every body with a record has its strategy's solution applied exactly once, every other body is unchanged, and the records are dropped |
| Shell.Negate | jump-leveleditor/src/main/java/com/bitdecay/jump/leveleditor/example/game/ShellController.java:27 | Java's int negation: the arithmetic negation, except that the smallest int stays itself |
| Shell.Steer | jump-leveleditor/src/main/java/com/bitdecay/jump/leveleditor/example/game/ShellController.java:20-37 | a stopped shell changes nothing; it turns exactly when pushed back against its direction, keeping the velocity that update; otherwise a moving shell drives at its speed in its direction |
| Shell.TurnThenDrive | jump-leveleditor/src/main/java/com/bitdecay/jump/leveleditor/example/game/ShellController.java:20-37 | a pushed-back shell turns on one update and drives the other way on the next unpushed one |
| Shell.UnpushedIdempotent | jump-leveleditor/src/main/java/com/bitdecay/jump/leveleditor/example/game/ShellController.java:20-37 | without a push a second update changes nothing more |
| Shell.VelocityIsDriveOrKept | jump-leveleditor/src/main/java/com/bitdecay/jump/leveleditor/example/game/ShellController.java:20-37 | after an update the horizontal velocity is either untouched or the drive for the new direction |
| Shell.ShellController.constructor | jump-leveleditor/src/main/java/com/bitdecay/jump/leveleditor/example/game/ShellController.java:10-17 | a new shell is moving, heading right, with the given speed |
| Shell.ShellController.Update | jump-leveleditor/src/main/java/com/bitdecay/jump/leveleditor/example/game/ShellController.java:20-37 | the new direction and horizontal velocity are those of the patrol step on the old ones; the vertical velocity, `moving` and `speed` are unchanged |

## Left out

- IEEE single-precision floats are not modelled: coordinates, velocities and time are exact reals, so `STEP_SIZE` is exactly 1/120 and the step loop's accumulation has no rounding error.
- The unit-length normalisation of a sloped axis (a square root) is left out: a sloped edge keeps the perpendicular (1, -run/rise) unnormalised, and only axis-aligned rectangles are proved about.
- The engine keeps the axes of both shapes in a hash set of points; the model treats equal points as the same axis (value equality of points is assumed).
- The movement phase runs over a parallel stream in the engine; it is modelled as a sequential loop in list order. The per-body work touches only the body and its riders.
- The state-watcher notification pass after resolution is left out: the watchers are collaborators that are not part of this model.
- The process-wide debug lists of resolved and unresolved collisions, cleared on every step, are visualisation state and are left out.
- World.BitWorld.ResolveAndApplyPendingResolutions: the hash map's iteration order is unspecified, so the records are taken in an arbitrary order and nothing order-dependent is claimed. The strategy sees the store as it stands when each body's turn comes.
- The shrink applied to a kinetic body's move and the collision solver are function-typed parameters that return a displacement and a manifold.
- Resolution.BitResolution.Resolve: the strategy is a pure choice of the resolved position. It cannot move or deactivate the body or touch the world, as the engine's strategies may (crushing a body, for one). The contract's clause that the body is unchanged rests on that.
- Bodies.Moved: the controller hook can only return a new velocity. A controller that changes other fields of its body, or other bodies, is not modelled.
- World.BitWorld.ResolveAndApplyPendingResolutions: the strategy returns a solution (displacement and halt flags), which the world applies. Strategies that deactivate a body or change other bodies while resolving are not modelled, and neither is the mutation of a resolution object.
- The intersection and on-grid helpers are not part of this model; their bodies here are the contracts the engine relies on (positive-area overlap; within the grid's bounds).
- The engine's resolution record shown for the world is a different version of `BitResolution` from the one in the geometry and collision library; the world's records are modelled as the lists of collisions the world builds, and the library's record as the class in `Resolution`.
- Resolution.BitResolution.constructor: the `lockingResolution` flag is only initialised; what a locking resolution does is up to strategies that are not part of this model.
- Integer points (`BitPointInt`), the rectangle's integer-point constructor and its containment tests for points given as objects are left out; the real-valued forms cover the same arithmetic.
- The four direction bits (up 1, right 2, down 4, left 8) are assumed values: the direction constants are not part of this model.
- The body class shown for the world has no `active`, `children`, `parent` or `lastAttempt` fields although the world uses them; a new body is assumed to start active, with no riders and no parent. The state watcher and other body fields are left out.
- World.BitWorld.Step: it requires a configured world (a positive tile size, a grid offset and a grid), which the engine needs for its broad phase but does not check.
- World.BitWorld.InternalStep: it requires a configured world, as `Step` does; the properties about active bodies after movement are proved about the movement function (`Bodies.MovePhaseActive`) rather than repeated in this method's contract.
- World.BitWorld.ParseGrid: every tile's body must be in the world's store, and no column may be shorter than the first; the engine would fail with an index error on a shorter column.
- The grid-objects accessors (`getGrid`, `getTileSize`, `getBodies`, ...) and `setGrid` are plain reads or a direct call of the grid parser, and are left out.
- Shell.ShellController.Update: the integer speed is converted to a real exactly, without the rounding of an int-to-float conversion for speeds above 2^24.

## Findings

| source | as written | input that shows it | evidently intended | confidence | as-written member | corrected member |
|---|---|---|---|---|---|---|
| jump-core/src/main/java/com/bitdecay/jump/collision/SATUtilities.java:82-86 | an edge with no run (a vertical edge) gets the axis (0,1) and an edge with no rise gets (1,0): the edge's own direction, not its perpendicular | rectangles (0,0,0,10) and (5,0,0,10): both have zero width, so every edge is vertical or degenerate and the only axis is (0,1), on which their projections overlap; a collision is reported although the rectangles are 5 apart | the perpendicular axis for each edge, (1,0) for a vertical edge and (0,1) for a horizontal one, under which the two rectangles do not collide | not executed | Sat.ZeroWidthRectsCollideAsWritten | Sat.RectCollisionIff |

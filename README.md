# rust-pong core in Dafny

This project models the game logic of rust-pong, a Bevy Breakout/Pong hybrid,
and proves properties of it. Each fixed-timestep tick runs five systems in a
fixed order: `apply_velocity`, `move_players`, `check_for_collisions`,
`play_collision_sound` and `update_velocity`. The model covers:

- the tick itself;
- the brick-grid arithmetic of `setup`;
- the validation of the per-paddle parameters, `ParametersPaddles::get_verified`;
- the wall geometry of `Wall::translation` and `Wall::scale`;
- the index generation of `From<RegularPolygon> for Mesh`.

The modules are:

- `Wrappers` and `Vectors` (vectors.dfy): `Option`/`Result`, and 2-D/3-D vectors with clamping.
- `Components` (components.dfy): the ECS components, the wall record, and `get_extreme`.
- `Motion` (motion.dfy): per-entity steps of `move_players`, `apply_velocity` and `update_velocity`.
- `Collision` (collision.dfy): `check_for_collisions` as functions over values.
  - `Respond` handles one overlap.
  - `BallAgainst` handles one ball against every collider.
  - `Pass` handles every ball.
  - Lemmas state what a pass promises.
- `Simulation` (simulation.dfy): class `World`, holding the entity store and the resources the systems share (scoreboard, speed, collision events, deferred commands, sounds).
  - Its methods are the systems, written with the source's loops.
  - Each method is proved to compute the functions of `Motion` and `Collision`.
- `Parameters` (parameters.dfy): `ParametersPaddles::new` and `get_verified`.
- `Polygon` (polygon.dfy): triangle-fan meshes of regular polygons.
- `Setup` (setup.dfy): how many bricks fit and where each one is spawned.

The model follows these conventions:

- `f32` values are exact `real`s. The `i32` arithmetic of `setup` is unbounded `int`, with Rust's truncating `/` and `as i32` written out (`Setup.TDiv`, `Setup.TruncReal`).
- Several engine and library functions are parameters of the operations that use them:
  - `normalize` / `normalize_or_zero`. The only fact assumed about them (`FixesZero2`, `FixesZero3`) is that zero maps to zero, and only the lemmas that need it require it.
  - Bevy's `collide_aabb::collide`.
  - `rand::random`.
  - `time.delta_seconds()`.
  - The set of pressed keys.

The source does not compile as written in several places. The model takes each at its evident intent:

- `parameters` is unbound in `move_players`, `apply_velocity` and `check_for_collisions` (src/main.rs:448, 467, 506). The values read from it are inputs: the paddle and ball bounds, and `BallConfig`.
- src/main.rs:513 matches `Wall` as a tuple struct, but `Wall` is a record (src/types.rs:103-107). Each entity's wall component is modelled as the identifier of the wall (`Entity.wall: Option<nat>`).
- src/main.rs:514-517 reads `wall_that_gives_points` from each of `parameters.players`, but `Player` has only `controls` (src/types.rs:41-43). The per-player walls are `BallConfig.wallThatGivesPoints`, indexed like the players.
- src/main.rs:23 builds a `Scoreboard` resource, but src/types.rs:24-26 declares `Scoreboards { scores: Vec<f32> }`, and `*scoreboard += 1` adds an integer literal. Scores are modelled as counts, `seq<nat>`.
- `setup` reads `parameters.wall` and `parameters.paddle` (src/main.rs:314-319), which `Parameters` lacks (src/types.rs:563-571). The wall positions, the wall thickness and the paddle bounds are the inputs of `Setup.Arena`.
- `ParametersMisc` and `ParametersBrick` hold `f32` (src/types.rs:575-578, 937-938), but `setup` uses them in `as i32` casts, integer `/` and `0..n_rows`. All of `setup`'s quantities are modelled as integers (`int`).
- In `get_verified`, `s` is not `mut` (src/parameters.rs:39) but is reassigned below. `Parameters.GetVerified` works on a local copy, and it takes the record as an argument rather than always `Self::new()`.

## Model

| member | source | states |
|---|---|---|
| Collision.Reflect | src/main.rs:534-556 | A side flips only its own axis, and only when the ball moves into it: Left iff vx > 0, Right iff vx < 0, Top iff vy < 0, Bottom iff vy > 0. Afterwards the ball does not move into that side. Both absolute speeds are kept. `Inside` changes nothing. |
| Simulation.ReflectVelocity | src/main.rs:534-556 | The source's two flags and conditional negations compute exactly `Reflect`. |
| Collision.Ramp | src/main.rs:506-508 | Below the cap the speed becomes exactly 1.01 times itself; at or above the cap it is unchanged. It never decreases from a non-negative start, and it is unchanged at or above the cap. From below the cap it stays under 1.01 times the cap. |
| Collision.ScoringIndex | src/main.rs:513-527 | The credited player is the first index whose wall matches the hit and that has a score. No earlier index qualifies. `None` iff no index qualifies. |
| Collision.Credit | src/main.rs:513-527 | The credited player's score goes up by exactly one. Every other score is unchanged, and the length is kept. |
| Collision.CreditWall | src/main.rs:513-527 | The source's loop, with its `break` on the first credited score, computes `Credit`. |
| Collision.Respond | src/main.rs:505-575 | One overlap does the following: reflect the velocity; send one event; ramp the speed; leave scores alone unless the collider is a wall, and set them to `Credit` of the hit wall when it is one; only append commands; queue nothing unless the collider is a brick; for a brick, queue exactly one despawn of it, followed by exactly one more command (a ball at the starting position with the reflected velocity) iff the draw is below the probability, so a brick hit adds one or two commands and no more. |
| Collision.BallAgainst | src/main.rs:498-576 | One ball against every collider is a chain of reflections: both absolute speeds are kept, and a ball that overlaps nothing keeps its velocity and leaves the resources unchanged. |
| Collision.Pass | src/main.rs:494-577 | A pass over the store keeps the number of entities. |
| Collision.PassKeepsSpeeds | src/main.rs:494-577 | After a pass every ball still has a velocity with the same absolute x and y speeds, and a ball that overlaps no collider is unchanged. |
| Collision.PassScoresAndSpeed | src/main.rs:506-527 | Over a whole pass, scores keep their count and never decrease. The speed changes only as repeated ramps allow. |
| Collision.BallAgainstScoresAndSpeed | src/main.rs:498-576 | The same as `PassScoresAndSpeed`, for one ball against every collider. |
| Collision.PassEvents | src/main.rs:511 | A pass sends exactly one event per overlapping (ball, collider) pair. |
| Collision.BallAgainstEvents | src/main.rs:498-576 | One ball sends one event per collider it overlaps. |
| Collision.PassCommands | src/main.rs:530-573 | A pass only appends to the command queue. Every queued command is a despawn of a brick of the store, or a new ball with the configured starting position and size. |
| Collision.BallAgainstCommands | src/main.rs:530-573 | The same as `PassCommands`, for one ball. |
| Collision.PassWithoutBricks | src/main.rs:530-560 | Without bricks, a pass queues nothing. |
| Collision.BallAgainstWithoutBricks | src/main.rs:530-560 | Without bricks, one ball queues nothing. |
| Collision.PassOnlyTurnsBalls | src/main.rs:487-577 | Colliders are never changed during the pass. Every entity keeps everything but its velocity, non-balls keep their velocity too, and balls keep having one. |
| Collision.DuplicationExtremes | src/main.rs:558-560 | With probability 1 every brick overlap duplicates the ball. With probability 0 none does. |
| Simulation.World.constructor | src/main.rs:23-27 | The scoreboard starts with one zero per player, and the speed starts at the configured starting speed. Nothing is pending. |
| Simulation.World.ApplyVelocity | src/main.rs:461-472 | Every entity becomes `Integrate` of its old state. No resource changes. |
| Simulation.World.MovePlayers | src/main.rs:421-453 | Every paddle of a player becomes `MovePaddle` of its old position. Other entities and all resources are unchanged. |
| Simulation.World.CheckForCollisions | src/main.rs:484-578 | The nested loops leave the resources and the store exactly as `Pass` computes them. |
| Simulation.World.BallAgainstColliders | src/main.rs:498-576 | The inner loop computes `BallAgainst` for one ball. |
| Simulation.World.RespondToCollision | src/main.rs:505-575 | The body for one overlap computes `Respond`. |
| Simulation.World.PlayCollisionSound | src/main.rs:580-595 | Exactly one sound starts iff at least one event is pending. The event queue is empty afterwards, and nothing else changes. |
| Simulation.World.UpdateVelocity | src/main.rs:455-459 | Every entity becomes `Renormalize` of its old state at the current speed. |
| Simulation.World.Tick | src/main.rs:46-57 | The new state is the old one taken through `IntegrateAll`, `MoveAll`, `Pass` and `RenormalizeAll`. Exactly one sound starts iff an event was pending or the pass found an overlapping pair. No event is left pending. No score has decreased, and the speed has only ramped. The command queue only grew, and the store holds the same entities in the same order. Every ball that is not a paddle lies within ordered ball bounds. |
| Motion.PressedSum | src/main.rs:429-439 | The sum of the pressed move directions is `None` iff no `Move` control of the player is pressed. |
| Motion.PressedDelta | src/main.rs:429-439 | The accumulation loop over the controls computes `PressedSum`. |
| Motion.PressedSumConcat | src/main.rs:429-439 | The sum over two lists of controls combines the sums of each. |
| Motion.PressedSumOrderIndependent | src/main.rs:429-439 | The order of the controls does not change the summed direction. |
| Motion.MovePaddle | src/main.rs:440-451 | The paddle does not move when nothing is pressed. Otherwise it moves by `normalize(sum)·speed·dt`, taken in full when that lands inside the bounds. It always ends within its bounds when they are ordered. When it would leave them, it is clamped component by component: an axis still in range keeps the move, and an axis out of range stops at the nearer bound. A zero sum moves it only through the clamp. |
| Motion.Integrate | src/main.rs:461-471 | Only the translation changes. Entities without velocity stay put, and non-balls advance by exactly v·dt in x and y with z kept. A ball ends within ordered bounds, and a ball whose advanced position is inside them sits exactly there. Otherwise the advanced position is clamped component by component, each out-of-range coordinate going to its nearer bound. |
| Motion.Renormalize | src/main.rs:455-459 | Only the velocity changes. Its presence is kept, and a zero velocity stays zero. |
| Parameters.New | src/parameters.rs:12-30 | The defaults hold two paddles, every per-paddle vector has length 2, and no width or height is zero. |
| Parameters.FirstMismatch | src/parameters.rs:41-54 | The first field, in declaration order, whose checked length differs from `n`. It is `None` iff all checked lengths match. |
| Parameters.AbsNonZero | src/parameters.rs:56-71 | Either the index of the first zero, or the absolute values, which are all positive. |
| Parameters.Verified | src/parameters.rs:38-86 | Ok iff every checked length is `n` and no width or height is zero. A length mismatch is reported first, then the first zero width, then the first zero height. On success, widths and heights are their positive absolute values, speeds their absolute values, and colours clamped into [0, 1]. `n`, positions, `bounds` and `wall_gives_points` pass through. |
| Parameters.AbsAll | src/parameters.rs:72 | Every speed becomes its absolute value, which is non-negative. The length is kept. |
| Parameters.ClampRgba | src/parameters.rs:76-81 | Every component of a colour ends in [0, 1]. A component already in range is kept, and one below 0 or above 1 becomes that bound. |
| Parameters.ClampAll | src/parameters.rs:73-83 | Every colour is clamped into [0, 1], and a colour already in range is kept. The length is kept. |
| Parameters.GetVerified | src/parameters.rs:38-86 | The field loop with its length assertions, followed by the reassignments, computes `Verified`. |
| Parameters.VerifiedIsIdempotent | src/parameters.rs:56-83 | Verifying a verified record returns it unchanged. |
| Parameters.DefaultIsVerified | src/parameters.rs:12-86 | `get_verified` succeeds on the defaults and leaves them unchanged. |
| Parameters.WallGivesPointsUnchecked | src/parameters.rs:41-54 | The length of `wall_gives_points` never affects the verdict. |
| Vectors.Clamp | src/main.rs:447-449 | glam's clamp, `max(lo).min(hi)`: with ordered bounds the result lies in them. A value already inside is kept, and one outside becomes the nearer bound. |
| Vectors.Clamp3 | src/main.rs:466-469 | The component-wise clamp lands inside ordered bounds. It leaves a vector already inside unchanged, and each component moves only if it is outside its own bounds, in which case it goes to the nearer bound. |
| Components.Translation | src/types.rs:119-121 | The wall's translation is the midpoint of its ends. |
| Components.Corners | src/types.rs:123-132 | The four corners sit pairwise symmetric about each end. |
| Components.RightIsNegatedLeft | src/types.rs:126-127 | Three quarter turns are the negation of one. |
| Components.GetExtreme | src/types.rs:139-164 | Panics iff the vertex list is empty or the coordinate index is not below its length. Otherwise it returns a value attained by some vertex that is below (minimum) or above (maximum) every vertex's coordinate. |
| Components.SeqMin | src/types.rs:147-163 | The minimum is an element and at most every element. |
| Components.SeqMax | src/types.rs:147-163 | The maximum is an element and at least every element. |
| Components.Scale | src/types.rs:122-175 | A wall's scale is the size of the bounding box of its four corners: no two corners are further apart in x (in y) than its x (y), and some two corners are exactly that far apart. Both components are non-negative. |
| Components.Extent | src/types.rs:166-174 | The width and height of the bounding box of four vertices: no two vertices are further apart in a coordinate than the extent, and some two are exactly that far apart. Both are non-negative. |
| Components.DegenerateWallHasZeroScale | src/types.rs:125-174 | A wall whose ends coincide has scale (0, 0). |
| Components.CornersOfDegenerateWall | src/types.rs:125-132 | A wall whose ends coincide has all four corners at that end. |
| Components.ExtentOfPoint | src/types.rs:166-174 | Four copies of one point span a zero extent. |
| Components.ExtremeOfConstant | src/types.rs:139-164 | Over identical vertices, either extreme is that vertex's coordinate. |
| Polygon.FromPolygon | src/types.rs:996-1026 | Fails iff `sides <= 2`. Otherwise there are `sides` positions, normals (all +z) and uvs, and exactly 3·(sides−2) indices. Triangle k is `[0, k+1, k]`, every index is below `sides`, and every triangle starts at vertex 0. |
| Setup.TDiv | src/main.rs:314-337 | Truncating division agrees with floor division on non-negative operands and has the sign of the exact quotient. |
| Setup.TDivOdd | src/main.rs:314-353 | Truncating division is odd in its dividend. |
| Setup.TruncReal | src/main.rs:343-358 | `as i32` truncates toward zero: the result lies within one of its argument, on the zero side. |
| Setup.FitCount | src/main.rs:332-335 | With a positive pitch and `total + gap ≥ 0`, `n = (total + gap) / (size + gap)` items plus their gaps fit in `total`, and `n + 1` would not. |
| Setup.HalfSpan | src/main.rs:340-358 | `(n as f32 / 2. * size as f32) as i32` is half of `n·size` truncated toward zero: twice it is within 2 of `n·size`, on the zero side. |
| Setup.LayoutWith | src/main.rs:323-364 | The layout fails (division by zero) iff a brick side plus the gap is zero. Otherwise the counts are the `FitCount`s of the width and height, the steps are brick size plus gap, and the right grid is the left one moved by the distance between the region centres. |
| Setup.Layout | src/main.rs:314-364 | With the right wall's inner face, the right grid is the left grid moved by the distance between the centres of the two regions. |
| Setup.LayoutAsWritten | src/main.rs:314-364 | As written, the layout differs from the corrected one only in the right grid's x, shifted by the change in the right region's centre. |
| Setup.LayoutFits | src/main.rs:323-337 | The columns fit in the width between the left wall and the paddle, and the rows fit in the height between the horizontal walls. Neither could take one more. |
| Setup.RightRegionMirrorsLeft | src/main.rs:314-350 | With the corrected right border, a mirror-symmetric arena centres the right grid on the mirror image of the left grid's centre. |
| Setup.RightGridOffsetMirrorsLeft | src/main.rs:340-364 | In such an arena the right grid is the left grid moved across the middle. |
| Setup.AsWrittenRightRegionOffCentre | src/main.rs:318-350 | With the border as written, a symmetric arena centres the right grid at 352 instead of 347, and its first brick sits 5 further right. |
| Setup.SpawnGrid | src/main.rs:366-391 | The nested loops spawn rows·columns bricks (none if either is not positive). Row r, column c is the (r·columns + c)-th. |
| Setup.SpawnBricks | src/main.rs:366-418 | Exactly 2·rows·columns bricks: the left grid, then the right grid. Each brick's position has a closed form. Neighbours in a row are brick width + gap apart at equal y, and neighbours in a column brick height + gap apart at equal x. |

## Left out

- The Bevy app wiring, state machine, menu and schedules (src/main.rs:15-196) are framework plumbing. Only the chaining order of the five systems is modelled, in `Simulation.World.Tick`.
- Rendering is left out: sprites, meshes, materials, camera, scoreboard text (`update_scoreboards`), and spawning of paddles, walls and the first ball. For bricks, only the number and positions of spawned bricks are modelled.
- `collide_aabb::collide`, `rand::random`, `time.delta_seconds()` and the keyboard state are engine or library calls. They are parameters of the operations that use them.
- The magnitude of `normalize`/`normalize_or_zero` is not modelled: it needs square roots, and `normalize` of zero is NaN. Only "zero maps to zero" is assumed, where a lemma needs it.
- `f32` rounding, NaN and infinity are not modelled; all values are exact reals.
- Overflow of the `i32` brick-grid arithmetic is not modelled, and neither is saturation of `as i32`.
- The `usize` arithmetic of the polygon mesh in release builds (where `debug_assert!` is off) is not modelled. `Polygon.FromPolygon` always refuses `sides <= 2`.
- The `sides as u32` cast at src/types.rs:1017 truncates `usize` to 32 bits. `Polygon.FromPolygon` treats `sides` as unbounded, so polygons with 2^32 sides or more are not modelled.
- The sin/cos positions and uvs of `RegularPolygon` are floating-point trigonometry. Only their number is modelled; positions and uvs are vertex indices.
- The TOML loading and writing, and `parameters_from_toml` (src/types.rs:294-560), are file I/O and serialisation.
- The `MyKeyCode` to `KeyCode` mirror (src/types.rs:748-916) is a copy of a foreign enum. Keys are plain numbers.
- Conversions and bundle builders (src/types.rs:70-100, 176-260) are not modelled.
- Applying deferred commands is not modelled: `Simulation.World.Tick` leaves spawns and despawns queued, as Bevy does until the end of the stage.
- The results of `left_bound`, `right_bound`, `neg_bounds` and `pos_bounds` are not shown in the source. They are inputs: `Setup.Arena`, and the bounds passed to `ApplyVelocity` and stored in each `Paddle`.
- Collision.Ramp: the speed is not clamped at `max_speed`. The code multiplies only while the speed is below the cap, so one step can overshoot the cap by less than 1 %.
- Collision.PassCommands: a brick hit by two balls in one pass gets two despawn commands. The brick is only removed when the commands are applied, so each overlap queues one. The model follows the code and does not promise a single despawn per brick.
- The order in which the Bevy queries visit entities is not fixed by the source. The model fixes one order, the order of the entity store, in `Collision.Pass` and in the loops of `Simulation.World`. That order decides the final velocity of a ball that overlaps colliders on opposite sides in one pass (with vx = 5, Left then Right ends at +5, Right then Left at -5), and the order of the queued commands.
- Motion.Integrate: the ball clamp applies to all three coordinates, z included, as `Vec3::clamp` does.

## Findings

| source | as written | input that shows it | evidently intended | confidence | as-written member | corrected member |
|---|---|---|---|---|---|---|
| src/main.rs:318 | `x_border_right_wall = x_right_wall + thickness / 2`, the outer face of the right wall; the other three borders (src/main.rs:314-316) step half the thickness into the arena | walls at x = -600 and 600, thickness 10, paddle bounds -100 and 100: the left grid is centred at -347, the right grid at 352 | `x_right_wall - thickness / 2`, so the right grid is centred at 347, the mirror image of the left | not executed | Setup.AsWrittenRightRegionOffCentre | Setup.RightRegionMirrorsLeft |

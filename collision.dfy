/** What `check_for_collisions` (src/main.rs:484-578) does for one ball
    against one collider, and over a whole pass of every ball against every
    collider, stated as functions over values. The imperative system in
    module `Simulation` is proved equal to `Pass`; the lemmas here state
    what a pass promises. */
module Collision {
  import opened Wrappers
  import opened Vectors
  import opened Components

  /** The side reported by Bevy's `collide_aabb::collide`. */
  datatype Side = Left | Right | Top | Bottom | Inside

  /** `collide(ball position, ball size, collider position, collider size)`:
      the overlap test of the engine, supplied by the caller. */
  type Collide = (Vec3, Vec2, Vec3, Vec2) -> Option<Side>

  /** `rand::random::<f32>()`, supplied by the caller as the draw made for
      the pair (ball index, collider index); a pair draws at most once. */
  type Draw = (nat, nat) -> real

  /** The part of the ball parameters the collision system reads. */
  datatype BallConfig = BallConfig(
    maxSpeed: real,
    probabilityToDuplicate: real,
    startingPosition: Vec3,
    size: Vec3,
    wallThatGivesPoints: seq<nat>)

  /** Deferred commands: nothing is removed from or added to the entity store
      during the pass. */
  datatype Command =
    | Despawn(entity: EntityId)
    | SpawnBall(translation: Vec3, scale: Vec3, velocity: Vec2)

  /** The resources the pass updates: the scoreboard, the global speed, the
      number of collision events sent and the command queue. */
  datatype Tally = Tally(scores: seq<nat>, speed: real, events: nat, commands: seq<Command>)

  // ---------------------------------------------------------------------
  // Reflection (src/main.rs:534-556)
  // ---------------------------------------------------------------------

  /** Reflects only the axis of the side that was hit, and only when the ball
      is moving into that side. Afterwards the ball no longer moves into the
      side, both speeds along the axes are kept, and the other axis is left
      alone; `Inside` changes nothing. */
  function Reflect(side: Side, v: Vec2): (r: Vec2)
    ensures Abs(r.x) == Abs(v.x) && Abs(r.y) == Abs(v.y)
    ensures side == Inside ==> r == v
    ensures side == Left ==> r.y == v.y && r.x <= 0.0 && (r.x != v.x <==> v.x > 0.0)
    ensures side == Right ==> r.y == v.y && r.x >= 0.0 && (r.x != v.x <==> v.x < 0.0)
    ensures side == Top ==> r.x == v.x && r.y >= 0.0 && (r.y != v.y <==> v.y < 0.0)
    ensures side == Bottom ==> r.x == v.x && r.y <= 0.0 && (r.y != v.y <==> v.y > 0.0)
  {
    var reflectX := (side == Left && v.x > 0.0) || (side == Right && v.x < 0.0);
    var reflectY := (side == Top && v.y < 0.0) || (side == Bottom && v.y > 0.0);
    Vec2(if reflectX then -v.x else v.x, if reflectY then -v.y else v.y)
  }

  // ---------------------------------------------------------------------
  // Speed ramp (src/main.rs:506-508)
  // ---------------------------------------------------------------------

  const Growth: real := 1.01

  /** Grows the speed by 1 % while it is strictly below the cap. There is no
      clamp: a speed just below the cap may end up above it, but never reaches
      1.01 times the cap, and a speed at or above the cap is left alone. */
  function Ramp(speed: real, maxSpeed: real): (r: real)
    ensures speed < maxSpeed ==> r == Growth * speed
    ensures speed >= 0.0 ==> r >= speed
    ensures 0.0 < speed < maxSpeed ==> r > speed
    ensures speed >= maxSpeed ==> r == speed
    ensures speed < maxSpeed ==> r < Growth * maxSpeed
  {
    if speed < maxSpeed then speed * Growth else speed
  }

  // ---------------------------------------------------------------------
  // Scoring (src/main.rs:513-527)
  // ---------------------------------------------------------------------

  /** The player credited for a hit on wall `hit`: the first index `i` whose
      `wall_that_gives_points` is `hit` and for which a score exists. An index
      without a score does not stop the search. */
  function ScoringIndex(walls: seq<nat>, hit: nat, nScores: nat): (r: Option<nat>)
    ensures r.Some? ==> r.value < |walls| && r.value < nScores && walls[r.value] == hit
    ensures r.Some? ==> forall j :: 0 <= j < r.value ==> !(walls[j] == hit && j < nScores)
    ensures r.None? ==> forall j :: 0 <= j < |walls| ==> !(walls[j] == hit && j < nScores)
  {
    ScoringIndexFrom(walls, hit, nScores, 0)
  }

  function ScoringIndexFrom(walls: seq<nat>, hit: nat, nScores: nat, k: nat): (r: Option<nat>)
    requires k <= |walls|
    ensures r.Some? ==> k <= r.value < |walls| && r.value < nScores && walls[r.value] == hit
    ensures r.Some? ==> forall j :: k <= j < r.value ==> !(walls[j] == hit && j < nScores)
    ensures r.None? ==> forall j :: k <= j < |walls| ==> !(walls[j] == hit && j < nScores)
    decreases |walls| - k
  {
    if k == |walls| then None
    else if walls[k] == hit && k < nScores then Some(k)
    else ScoringIndexFrom(walls, hit, nScores, k + 1)
  }

  /** The scoreboard after a hit on wall `hit`: exactly the credited player
      gains one point, every other score is unchanged. */
  function Credit(scores: seq<nat>, walls: seq<nat>, hit: nat): (r: seq<nat>)
    ensures |r| == |scores|
    ensures forall j :: 0 <= j < |scores| && ScoringIndex(walls, hit, |scores|) != Some(j) ==> r[j] == scores[j]
    ensures forall j :: 0 <= j < |scores| && ScoringIndex(walls, hit, |scores|) == Some(j) ==> r[j] == scores[j] + 1
  {
    match ScoringIndex(walls, hit, |scores|)
    case None => scores
    case Some(i) => scores[i := scores[i] + 1]
  }

  /** The scoring loop as the source writes it: walk the players in order and
      stop at the first one whose wall was hit and whose score exists. */
  method CreditWall(scores: seq<nat>, walls: seq<nat>, hit: nat) returns (r: seq<nat>)
    ensures r == Credit(scores, walls, hit)
  {
    r := scores;
    var i := 0;
    while i < |walls|
      invariant 0 <= i <= |walls|
      invariant r == scores
      invariant ScoringIndex(walls, hit, |scores|) == ScoringIndexFrom(walls, hit, |scores|, i)
    {
      if walls[i] == hit && i < |r| {
        r := r[i := r[i] + 1];
        return;
      }
      i := i + 1;
    }
  }

  // ---------------------------------------------------------------------
  // One overlapping pair (src/main.rs:505-575)
  // ---------------------------------------------------------------------

  /** The commands queued for one overlap: a despawn of the collider if it is
      a brick, then a new ball if it is a brick and the draw falls below the
      duplication probability. */
  function Queued(c: Entity, draw: real, cfg: BallConfig, v: Vec2): seq<Command> {
    (if c.brick then [Despawn(c.id)] else [])
    + (if c.brick && draw < cfg.probabilityToDuplicate then [SpawnBall(cfg.startingPosition, cfg.size, v)] else [])
  }

  /** The response to one overlap of the ball (velocity `v`) with collider `c`
      on side `side`: ramp the speed, send one event, credit a scoring wall,
      despawn a brick, reflect, and maybe duplicate the ball at its starting
      position with the reflected velocity. */
  function Respond(t: Tally, v: Vec2, c: Entity, side: Side, draw: real, cfg: BallConfig): (r: (Tally, Vec2))
    ensures r.1 == Reflect(side, v)
    ensures r.0.events == t.events + 1
    ensures r.0.speed == Ramp(t.speed, cfg.maxSpeed)
    ensures c.wall.None? ==> r.0.scores == t.scores
    ensures c.wall.Some? ==> r.0.scores == Credit(t.scores, cfg.wallThatGivesPoints, c.wall.value)
    ensures |r.0.scores| == |t.scores| && forall j :: 0 <= j < |t.scores| ==> t.scores[j] <= r.0.scores[j]
    ensures |r.0.commands| >= |t.commands| && r.0.commands[..|t.commands|] == t.commands
    ensures !c.brick ==> r.0.commands == t.commands
    ensures c.brick ==> |r.0.commands| == |t.commands| + (if draw < cfg.probabilityToDuplicate then 2 else 1)
    ensures c.brick ==> r.0.commands[|t.commands|] == Despawn(c.id)
    ensures c.brick && draw < cfg.probabilityToDuplicate ==>
      r.0.commands[|t.commands| + 1] == SpawnBall(cfg.startingPosition, cfg.size, r.1)
  {
    var speed := Ramp(t.speed, cfg.maxSpeed);
    var scores := if c.wall.Some? then Credit(t.scores, cfg.wallThatGivesPoints, c.wall.value) else t.scores;
    var v' := Reflect(side, v);
    (Tally(scores, speed, t.events + 1, t.commands + Queued(c, draw, cfg, v')), v')
  }

  // ---------------------------------------------------------------------
  // The pass over every ball and every collider (src/main.rs:494-577)
  // ---------------------------------------------------------------------

  /** The entities the ball query visits: balls that carry a velocity. */
  predicate IsBall(e: Entity) { e.ball && e.velocity.Some? }

  /** The overlap test of ball `i` against entity `j`; entities without a
      collider component are not in the collider query. */
  function Hit(es: seq<Entity>, i: nat, j: nat, collide: Collide): Option<Side>
    requires i < |es| && j < |es|
  {
    if es[j].collider
    then collide(es[i].translation, Truncate(es[i].scale), es[j].translation, Truncate(es[j].scale))
    else None
  }

  /** Ball `i`, starting with velocity `v`, against the first `k` entities:
      a chain of reflections, so both absolute speeds along the axes are kept,
      and a ball that overlaps none of them keeps its velocity. */
  function BallAgainst(t: Tally, v: Vec2, es: seq<Entity>, i: nat, k: nat,
                       collide: Collide, draw: Draw, cfg: BallConfig): (r: (Tally, Vec2))
    requires i < |es| && k <= |es|
    ensures Abs(r.1.x) == Abs(v.x) && Abs(r.1.y) == Abs(v.y)
    ensures HitCount(es, i, k, collide) == 0 ==> r == (t, v)
  {
    if k == 0 then (t, v)
    else
      var (t', v') := BallAgainst(t, v, es, i, k - 1, collide, draw, cfg);
      match Hit(es, i, k - 1, collide)
      case None => (t', v')
      case Some(side) => Respond(t', v', es[k - 1], side, draw(i, k - 1), cfg)
  }

  /** The first `k` entities, each ball among them tested against every
      collider; the result is the final tally and the store with each ball's
      velocity replaced by its post-reflection velocity. */
  function Pass(t: Tally, es: seq<Entity>, k: nat, collide: Collide, draw: Draw, cfg: BallConfig): (r: (Tally, seq<Entity>))
    requires k <= |es|
    ensures |r.1| == |es|
  {
    if k == 0 then (t, es)
    else
      var (t', es') := Pass(t, es, k - 1, collide, draw, cfg);
      var b := es[k - 1];
      if IsBall(b) then
        var (t'', v) := BallAgainst(t', b.velocity.value, es, k - 1, |es|, collide, draw, cfg);
        (t'', es'[k - 1 := b.(velocity := Some(v))])
      else (t', es')
  }

  // ---------------------------------------------------------------------
  // What a pass promises
  // ---------------------------------------------------------------------

  /** Scores keep their number and never decrease. */
  predicate ScoresGrow(before: seq<nat>, after: seq<nat>) {
    |after| == |before| && forall j :: 0 <= j < |before| ==> before[j] <= after[j]
  }

  /** The speed never decreases from a non-negative start, stays put once at
      or above the cap, and never exceeds the larger of its start and 1.01
      times the cap. */
  predicate SpeedRamps(before: real, after: real, maxSpeed: real) {
    && (before >= 0.0 ==> after >= before)
    && (before >= maxSpeed ==> after == before)
    && after <= Max(before, Growth * maxSpeed)
  }

  lemma {:induction false} BallAgainstScoresAndSpeed(t: Tally, v: Vec2, es: seq<Entity>, i: nat, k: nat,
                                                     collide: Collide, draw: Draw, cfg: BallConfig)
    requires i < |es| && k <= |es|
    ensures var r := BallAgainst(t, v, es, i, k, collide, draw, cfg).0;
      ScoresGrow(t.scores, r.scores) && SpeedRamps(t.speed, r.speed, cfg.maxSpeed)
  {
    if k > 0 {
      BallAgainstScoresAndSpeed(t, v, es, i, k - 1, collide, draw, cfg);
    }
  }

  /** Over a whole pass, scores keep their number and never decrease, and the
      global speed only ramps as `Ramp` allows. */
  lemma {:induction false} PassScoresAndSpeed(t: Tally, es: seq<Entity>, k: nat,
                                              collide: Collide, draw: Draw, cfg: BallConfig)
    requires k <= |es|
    ensures var r := Pass(t, es, k, collide, draw, cfg).0;
      ScoresGrow(t.scores, r.scores) && SpeedRamps(t.speed, r.speed, cfg.maxSpeed)
  {
    if k > 0 {
      PassScoresAndSpeed(t, es, k - 1, collide, draw, cfg);
      var t' := Pass(t, es, k - 1, collide, draw, cfg).0;
      var b := es[k - 1];
      if IsBall(b) {
        BallAgainstScoresAndSpeed(t', b.velocity.value, es, k - 1, |es|, collide, draw, cfg);
      }
    }
  }

  /** The number of colliders among the first `k` entities that ball `i` overlaps. */
  function HitCount(es: seq<Entity>, i: nat, k: nat, collide: Collide): nat
    requires i < |es| && k <= |es|
  {
    if k == 0 then 0
    else HitCount(es, i, k - 1, collide) + (if Hit(es, i, k - 1, collide).Some? then 1 else 0)
  }

  /** The number of overlapping (ball, collider) pairs whose ball is among the
      first `k` entities. */
  function PairCount(es: seq<Entity>, k: nat, collide: Collide): nat
    requires k <= |es|
  {
    if k == 0 then 0
    else PairCount(es, k - 1, collide) + (if IsBall(es[k - 1]) then HitCount(es, k - 1, |es|, collide) else 0)
  }

  lemma {:induction false} BallAgainstEvents(t: Tally, v: Vec2, es: seq<Entity>, i: nat, k: nat,
                                             collide: Collide, draw: Draw, cfg: BallConfig)
    requires i < |es| && k <= |es|
    ensures BallAgainst(t, v, es, i, k, collide, draw, cfg).0.events == t.events + HitCount(es, i, k, collide)
  {
    if k > 0 {
      BallAgainstEvents(t, v, es, i, k - 1, collide, draw, cfg);
    }
  }

  /** One collision event is sent per overlapping (ball, collider) pair. */
  lemma {:induction false} PassEvents(t: Tally, es: seq<Entity>, k: nat,
                                      collide: Collide, draw: Draw, cfg: BallConfig)
    requires k <= |es|
    ensures Pass(t, es, k, collide, draw, cfg).0.events == t.events + PairCount(es, k, collide)
  {
    if k > 0 {
      PassEvents(t, es, k - 1, collide, draw, cfg);
      var t' := Pass(t, es, k - 1, collide, draw, cfg).0;
      var b := es[k - 1];
      if IsBall(b) {
        BallAgainstEvents(t', b.velocity.value, es, k - 1, |es|, collide, draw, cfg);
      }
    }
  }

  /** Every command a pass may queue: the despawn of a brick of the store, or
      a new ball at the configured starting position and size. */
  predicate Expected(c: Command, es: seq<Entity>, cfg: BallConfig) {
    match c
    case Despawn(id) => exists j :: 0 <= j < |es| && es[j].brick && es[j].id == id
    case SpawnBall(translation, scale, _) => translation == cfg.startingPosition && scale == cfg.size
  }

  /** The pass only appends to the command queue, and only despawns of bricks
      and new balls at the starting position. */
  predicate CommandsAppended(before: seq<Command>, after: seq<Command>, es: seq<Entity>, cfg: BallConfig) {
    |before| <= |after| && after[..|before|] == before
    && forall m :: |before| <= m < |after| ==> Expected(after[m], es, cfg)
  }

  lemma {:induction false} BallAgainstCommands(t: Tally, v: Vec2, es: seq<Entity>, i: nat, k: nat,
                                               collide: Collide, draw: Draw, cfg: BallConfig)
    requires i < |es| && k <= |es|
    ensures CommandsAppended(t.commands, BallAgainst(t, v, es, i, k, collide, draw, cfg).0.commands, es, cfg)
  {
    if k > 0 {
      BallAgainstCommands(t, v, es, i, k - 1, collide, draw, cfg);
      var (t', v') := BallAgainst(t, v, es, i, k - 1, collide, draw, cfg);
      match Hit(es, i, k - 1, collide)
      case None =>
      case Some(side) =>
        var c := es[k - 1];
        var after := Respond(t', v', c, side, draw(i, k - 1), cfg).0.commands;
        assert after == t'.commands + Queued(c, draw(i, k - 1), cfg, Reflect(side, v'));
        forall m | |t.commands| <= m < |after|
          ensures Expected(after[m], es, cfg)
        {
          if m >= |t'.commands| && after[m].Despawn? {
            assert es[k - 1].brick && es[k - 1].id == after[m].entity;
          }
        }
    }
  }

  lemma {:induction false} PassCommands(t: Tally, es: seq<Entity>, k: nat,
                                        collide: Collide, draw: Draw, cfg: BallConfig)
    requires k <= |es|
    ensures CommandsAppended(t.commands, Pass(t, es, k, collide, draw, cfg).0.commands, es, cfg)
  {
    if k > 0 {
      PassCommands(t, es, k - 1, collide, draw, cfg);
      var t' := Pass(t, es, k - 1, collide, draw, cfg).0;
      var b := es[k - 1];
      if IsBall(b) {
        BallAgainstCommands(t', b.velocity.value, es, k - 1, |es|, collide, draw, cfg);
      }
    }
  }

  predicate NoBricks(es: seq<Entity>) { forall j :: 0 <= j < |es| ==> !es[j].brick }

  lemma {:induction false} BallAgainstWithoutBricks(t: Tally, v: Vec2, es: seq<Entity>, i: nat, k: nat,
                                                    collide: Collide, draw: Draw, cfg: BallConfig)
    requires i < |es| && k <= |es| && NoBricks(es)
    ensures BallAgainst(t, v, es, i, k, collide, draw, cfg).0.commands == t.commands
  {
    if k > 0 {
      BallAgainstWithoutBricks(t, v, es, i, k - 1, collide, draw, cfg);
    }
  }

  /** Without bricks, a pass neither despawns nor spawns anything. */
  lemma {:induction false} PassWithoutBricks(t: Tally, es: seq<Entity>, k: nat,
                                             collide: Collide, draw: Draw, cfg: BallConfig)
    requires k <= |es| && NoBricks(es)
    ensures Pass(t, es, k, collide, draw, cfg).0.commands == t.commands
  {
    if k > 0 {
      PassWithoutBricks(t, es, k - 1, collide, draw, cfg);
      var t' := Pass(t, es, k - 1, collide, draw, cfg).0;
      var b := es[k - 1];
      if IsBall(b) {
        BallAgainstWithoutBricks(t', b.velocity.value, es, k - 1, |es|, collide, draw, cfg);
      }
    }
  }

  /** The pass changes nothing but the velocities of balls: every entity keeps
      its identity, position and other components, and an entity that is not
      a ball keeps its velocity too. */
  lemma {:induction false} PassOnlyTurnsBalls(t: Tally, es: seq<Entity>, k: nat,
                                              collide: Collide, draw: Draw, cfg: BallConfig)
    requires k <= |es|
    ensures var out := Pass(t, es, k, collide, draw, cfg).1;
      forall j :: 0 <= j < |es| ==>
        out[j].(velocity := es[j].velocity) == es[j] && (IsBall(es[j]) ==> out[j].velocity.Some?)
        && (!IsBall(es[j]) || j >= k ==> out[j] == es[j])
  {
    if k > 0 {
      PassOnlyTurnsBalls(t, es, k - 1, collide, draw, cfg);
    }
  }

  /** What a pass does to the store's velocities: every ball keeps its
      absolute speed along each axis (only reflections happen to it), and a
      ball that overlaps no collider keeps its velocity exactly. */
  lemma {:induction false} PassKeepsSpeeds(t: Tally, es: seq<Entity>, k: nat,
                                           collide: Collide, draw: Draw, cfg: BallConfig)
    requires k <= |es|
    ensures var out := Pass(t, es, k, collide, draw, cfg).1;
      forall j :: 0 <= j < |es| && IsBall(es[j]) ==>
        && out[j].velocity.Some?
        && Abs(out[j].velocity.value.x) == Abs(es[j].velocity.value.x)
        && Abs(out[j].velocity.value.y) == Abs(es[j].velocity.value.y)
        && (HitCount(es, j, |es|, collide) == 0 ==> out[j] == es[j])
  {
    if k > 0 {
      PassKeepsSpeeds(t, es, k - 1, collide, draw, cfg);
    }
  }

  /** Duplication is governed by the draw alone: with probability 1 every
      brick overlap queues a new ball, with probability 0 none does (draws lie
      in `[0, 1)`). */
  lemma DuplicationExtremes(t: Tally, v: Vec2, c: Entity, side: Side, draw: real, cfg: BallConfig)
    requires c.brick && 0.0 <= draw < 1.0
    ensures cfg.probabilityToDuplicate == 1.0 ==> |Respond(t, v, c, side, draw, cfg).0.commands| == |t.commands| + 2
    ensures cfg.probabilityToDuplicate == 0.0 ==> |Respond(t, v, c, side, draw, cfg).0.commands| == |t.commands| + 1
  {
  }
}

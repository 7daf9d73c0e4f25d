/** The game state owned by the fixed-timestep schedule and the five systems
    it runs each tick, in the order chained at src/main.rs:46-57:
    `apply_velocity`, `move_players`, `check_for_collisions`,
    `play_collision_sound`, `update_velocity`. */
module Simulation {
  import opened Wrappers
  import opened Vectors
  import opened Components
  import opened Collision
  import opened Motion

  /** The reflection step of `check_for_collisions` as the source writes it:
      decide per side whether an axis is reflected, then negate it. */
  method ReflectVelocity(side: Side, velocity: Vec2) returns (reflected: Vec2)
    ensures reflected == Reflect(side, velocity)
  {
    var reflectX := false;
    var reflectY := false;
    match side {
      case Left => reflectX := velocity.x > 0.0;
      case Right => reflectX := velocity.x < 0.0;
      case Top => reflectY := velocity.y < 0.0;
      case Bottom => reflectY := velocity.y > 0.0;
      case Inside =>
    }
    reflected := velocity;
    if reflectX {
      reflected := reflected.(x := -reflected.x);
    }
    if reflectY {
      reflected := reflected.(y := -reflected.y);
    }
  }

  /** The entity store with the resources the systems share: the scoreboard,
      the global ball speed, the pending collision events, the deferred
      command queue, and the number of collision sounds started. */
  class World {
    var entities: seq<Entity>
    var scores: seq<nat>
    var speed: real
    var events: nat
    var commands: seq<Command>
    var sounds: nat

    /** The state after start-up (src/main.rs:23-27): one zero score per
        player, the configured starting speed, nothing pending. */
    constructor (initial: seq<Entity>, players: nat, startingSpeed: real)
      ensures entities == initial
      ensures |scores| == players && forall i :: 0 <= i < players ==> scores[i] == 0
      ensures speed == startingSpeed && events == 0 && commands == [] && sounds == 0
    {
      entities := initial;
      scores := seq(players, _ => 0);
      speed := startingSpeed;
      events := 0;
      commands := [];
      sounds := 0;
    }

    /** `apply_velocity`: every entity with a velocity moves, balls are then
        clamped into the ball bounds `[lo, hi]` (the results of
        `neg_bounds`/`pos_bounds`, whose `parameters` argument is unbound at
        src/main.rs:467-468 and is taken here as given). */
    method ApplyVelocity(dt: real, lo: Vec3, hi: Vec3)
      modifies this
      ensures |entities| == |old(entities)|
      ensures forall j :: 0 <= j < |entities| ==> entities[j] == Integrate(old(entities)[j], dt, lo, hi)
      ensures scores == old(scores) && speed == old(speed) && events == old(events)
      ensures commands == old(commands) && sounds == old(sounds)
    {
      var i := 0;
      while i < |entities|
        invariant 0 <= i <= |entities| == |old(entities)|
        invariant forall j :: 0 <= j < i ==> entities[j] == Integrate(old(entities)[j], dt, lo, hi)
        invariant forall j :: i <= j < |entities| ==> entities[j] == old(entities)[j]
        invariant scores == old(scores) && speed == old(speed) && events == old(events)
        invariant commands == old(commands) && sounds == old(sounds)
      {
        var e := entities[i];
        if e.velocity.Some? {
          var v := e.velocity.value;
          var t := e.translation;
          t := t.(x := t.x + v.x * dt);
          t := t.(y := t.y + v.y * dt);
          if e.ball {
            t := Clamp3(t, lo, hi);
          }
          entities := entities[i := e.(translation := t)];
        }
        i := i + 1;
      }
    }

    /** `move_players`: every entity that is a player's paddle moves
        according to the keys pressed this tick. */
    method MovePlayers(pressed: set<Key>, dt: real, normalize: Vec3 -> Vec3)
      modifies this
      ensures |entities| == |old(entities)|
      ensures forall j :: 0 <= j < |entities| ==>
        var e := old(entities)[j];
        entities[j] == if e.player.Some? && e.paddle.Some?
          then e.(translation := MovePaddle(e.translation, e.player.value, e.paddle.value, pressed, dt, normalize))
          else e
      ensures scores == old(scores) && speed == old(speed) && events == old(events)
      ensures commands == old(commands) && sounds == old(sounds)
    {
      var i := 0;
      while i < |entities|
        invariant 0 <= i <= |entities| == |old(entities)|
        invariant forall j :: 0 <= j < i ==>
          var e := old(entities)[j];
          entities[j] == if e.player.Some? && e.paddle.Some?
            then e.(translation := MovePaddle(e.translation, e.player.value, e.paddle.value, pressed, dt, normalize))
            else e
        invariant forall j :: i <= j < |entities| ==> entities[j] == old(entities)[j]
        invariant scores == old(scores) && speed == old(speed) && events == old(events)
        invariant commands == old(commands) && sounds == old(sounds)
      {
        var e := entities[i];
        if e.player.Some? && e.paddle.Some? {
          var paddle := e.paddle.value;
          var delta := PressedDelta(e.player.value.controls, pressed);
          if delta.Some? {
            var moved := Add3(e.translation, Scale3(Scale3(normalize(delta.value), paddle.speed), dt));
            entities := entities[i := e.(translation := Clamp3(moved, paddle.negBounds, paddle.posBounds))];
          }
        }
        i := i + 1;
      }
    }

    /** `check_for_collisions`: every ball against every collider, with the
        colliders read from the store as it was when the pass began (brick
        removal and new balls are only queued). The resources and the ball
        velocities end as `Pass` says. */
    method CheckForCollisions(collide: Collide, draw: Draw, cfg: BallConfig)
      modifies this
      ensures (Tally(scores, speed, events, commands), entities)
        == Pass(Tally(old(scores), old(speed), old(events), old(commands)), old(entities), |old(entities)|, collide, draw, cfg)
      ensures sounds == old(sounds)
    {
      var es := entities;
      ghost var t0 := Tally(scores, speed, events, commands);
      var i := 0;
      while i < |es|
        invariant 0 <= i <= |es|
        invariant (Tally(scores, speed, events, commands), entities) == Pass(t0, es, i, collide, draw, cfg)
        invariant sounds == old(sounds)
      {
        var ball := es[i];
        if ball.ball && ball.velocity.Some? {
          var velocity := BallAgainstColliders(es, i, collide, draw, cfg);
          entities := entities[i := ball.(velocity := Some(velocity))];
        }
        i := i + 1;
      }
    }

    /** The inner loop of `check_for_collisions` for ball `i`: its velocity,
        mutated collider after collider, is returned. */
    method BallAgainstColliders(es: seq<Entity>, i: nat, collide: Collide, draw: Draw, cfg: BallConfig)
      returns (velocity: Vec2)
      requires i < |es| && IsBall(es[i])
      modifies this
      ensures (Tally(scores, speed, events, commands), velocity)
        == BallAgainst(Tally(old(scores), old(speed), old(events), old(commands)),
                       es[i].velocity.value, es, i, |es|, collide, draw, cfg)
      ensures entities == old(entities) && sounds == old(sounds)
    {
      var ball := es[i];
      ghost var t0 := Tally(scores, speed, events, commands);
      velocity := ball.velocity.value;
      var j := 0;
      while j < |es|
        invariant 0 <= j <= |es|
        invariant (Tally(scores, speed, events, commands), velocity)
          == BallAgainst(t0, ball.velocity.value, es, i, j, collide, draw, cfg)
        invariant entities == old(entities) && sounds == old(sounds)
      {
        var collider := es[j];
        if collider.collider {
          var collision := collide(ball.translation, Truncate(ball.scale), collider.translation, Truncate(collider.scale));
          if collision.Some? {
            velocity := RespondToCollision(velocity, collider, collision.value, draw(i, j), cfg);
          }
        }
        j := j + 1;
      }
    }

    /** The body of `if let Some(collision)` in `check_for_collisions`, for
        one overlapping collider; returns the ball's reflected velocity. */
    method RespondToCollision(velocity: Vec2, collider: Entity, side: Side, draw: real, cfg: BallConfig)
      returns (reflected: Vec2)
      modifies this
      ensures (Tally(scores, speed, events, commands), reflected)
        == Respond(Tally(old(scores), old(speed), old(events), old(commands)), velocity, collider, side, draw, cfg)
      ensures entities == old(entities) && sounds == old(sounds)
    {
      ghost var want := Respond(Tally(scores, speed, events, commands), velocity, collider, side, draw, cfg);
      if speed < cfg.maxSpeed {
        speed := speed * Growth;
      }
      events := events + 1;
      if collider.wall.Some? {
        scores := CreditWall(scores, cfg.wallThatGivesPoints, collider.wall.value);
      }
      if collider.brick {
        commands := commands + [Despawn(collider.id)];
      }
      reflected := ReflectVelocity(side, velocity);
      if collider.brick && draw < cfg.probabilityToDuplicate {
        commands := commands + [SpawnBall(cfg.startingPosition, cfg.size, reflected)];
      }
      assert speed == Ramp(old(speed), cfg.maxSpeed);
      assert scores == if collider.wall.Some? then Credit(old(scores), cfg.wallThatGivesPoints, collider.wall.value) else old(scores);
      assert commands == old(commands) + Queued(collider, draw, cfg, reflected);
      assert Tally(scores, speed, events, commands) == want.0 && reflected == want.1;
    }

    /** `play_collision_sound`: one sound when at least one collision event is
        pending, however many there are; the queue is empty afterwards. */
    method PlayCollisionSound()
      modifies this
      ensures events == 0
      ensures sounds == old(sounds) + (if old(events) > 0 then 1 else 0)
      ensures entities == old(entities) && scores == old(scores) && speed == old(speed)
      ensures commands == old(commands)
    {
      if events > 0 {
        events := 0;
        sounds := sounds + 1;
      }
    }

    /** `update_velocity`: every velocity is re-pinned to the global speed
        along its (abstract) normalised direction. */
    method UpdateVelocity(normalize: Vec2 -> Vec2)
      modifies this
      ensures |entities| == |old(entities)|
      ensures forall j :: 0 <= j < |entities| ==> entities[j] == Renormalize(old(entities)[j], speed, normalize)
      ensures scores == old(scores) && speed == old(speed) && events == old(events)
      ensures commands == old(commands) && sounds == old(sounds)
    {
      var i := 0;
      while i < |entities|
        invariant 0 <= i <= |entities| == |old(entities)|
        invariant forall j :: 0 <= j < i ==> entities[j] == Renormalize(old(entities)[j], speed, normalize)
        invariant forall j :: i <= j < |entities| ==> entities[j] == old(entities)[j]
        invariant scores == old(scores) && speed == old(speed) && events == old(events)
        invariant commands == old(commands) && sounds == old(sounds)
      {
        var e := entities[i];
        if e.velocity.Some? {
          entities := entities[i := e.(velocity := Some(Scale2(normalize(e.velocity.value), speed)))];
        }
        i := i + 1;
      }
    }

    /** One fixed-timestep tick: the five systems in their chained order.
        The new state is the old one taken through `IntegrateAll`, `MoveAll`,
        `Pass` and `RenormalizeAll`. Afterwards no score has decreased, the
        speed has only ramped, no collision event is left pending, a sound
        started exactly when an event was pending or the pass found an
        overlap, the command queue has only grown, the store holds the same
        entities (spawns and despawns are still queued), and every ball that
        is not a paddle lies within ordered ball bounds. */
    method Tick(dt: real, ballLo: Vec3, ballHi: Vec3, pressed: set<Key>,
                normalize3: Vec3 -> Vec3, normalize2: Vec2 -> Vec2,
                collide: Collide, draw: Draw, cfg: BallConfig)
      modifies this
      ensures var es := MoveAll(IntegrateAll(old(entities), dt, ballLo, ballHi), pressed, dt, normalize3);
        var p := Pass(Tally(old(scores), old(speed), old(events), old(commands)), es, |es|, collide, draw, cfg);
        && scores == p.0.scores && speed == p.0.speed && commands == p.0.commands
        && entities == RenormalizeAll(p.1, p.0.speed, normalize2)
        && sounds == old(sounds) + (if old(events) + PairCount(es, |es|, collide) > 0 then 1 else 0)
      ensures ScoresGrow(old(scores), scores)
      ensures SpeedRamps(old(speed), speed, cfg.maxSpeed)
      ensures events == 0
      ensures |old(commands)| <= |commands| && commands[..|old(commands)|] == old(commands)
      ensures |entities| == |old(entities)|
      ensures forall j :: 0 <= j < |entities| ==> entities[j].id == old(entities)[j].id
      ensures Ordered3(ballLo, ballHi) ==>
        forall j ::
          (0 <= j < |entities| && IsBall(old(entities)[j])
           && !(old(entities)[j].player.Some? && old(entities)[j].paddle.Some?))
          ==> Within3(entities[j].translation, ballLo, ballHi)
    {
      ghost var e0 := entities;
      ApplyVelocity(dt, ballLo, ballHi);
      ghost var e1 := entities;
      assert e1 == IntegrateAll(e0, dt, ballLo, ballHi);
      MovePlayers(pressed, dt, normalize3);
      ghost var es := entities;
      assert es == MoveAll(e1, pressed, dt, normalize3);
      ghost var t := Tally(scores, speed, events, commands);
      CheckForCollisions(collide, draw, cfg);
      ghost var e3 := entities;
      PassScoresAndSpeed(t, es, |es|, collide, draw, cfg);
      PassCommands(t, es, |es|, collide, draw, cfg);
      PassOnlyTurnsBalls(t, es, |es|, collide, draw, cfg);
      PassEvents(t, es, |es|, collide, draw, cfg);
      PlayCollisionSound();
      UpdateVelocity(normalize2);
      assert entities == RenormalizeAll(e3, speed, normalize2);
      if Ordered3(ballLo, ballHi) {
        forall j | 0 <= j < |entities| && IsBall(e0[j]) && !(e0[j].player.Some? && e0[j].paddle.Some?)
          ensures Within3(entities[j].translation, ballLo, ballHi)
        {
          assert Within3(e1[j].translation, ballLo, ballHi);
          assert es[j] == e1[j];
          assert e3[j].translation == es[j].translation;
        }
      }
    }
  }
}

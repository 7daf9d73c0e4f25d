/** Per-entity steps of the systems `move_players` (src/main.rs:421-453),
    `apply_velocity` (src/main.rs:461-472) and `update_velocity`
    (src/main.rs:455-459). */
module Motion {
  import opened Wrappers
  import opened Vectors
  import opened Components

  // ---------------------------------------------------------------------
  // Paddle input (src/main.rs:427-451)
  // ---------------------------------------------------------------------

  /** Adding one more pressed direction to the running `delta`. */
  function Combine(a: Option<Vec3>, b: Option<Vec3>): Option<Vec3> {
    match (a, b)
    case (None, _) => b
    case (_, None) => a
    case (Some(x), Some(y)) => Some(Add3(x, y))
  }

  /** A control contributes when its effect is a move and its key is pressed. */
  predicate Contributes(c: Control, pressed: set<Key>) {
    c.effect.Move? && c.key in pressed
  }

  /** The sum of the directions of the pressed `Move` controls, or `None` when
      no such control is pressed. */
  function PressedSum(controls: seq<Control>, pressed: set<Key>): (r: Option<Vec3>)
    ensures r.None? <==> forall i :: 0 <= i < |controls| ==> !Contributes(controls[i], pressed)
  {
    if controls == [] then None
    else
      var last := controls[|controls| - 1];
      var rest := PressedSum(controls[..|controls| - 1], pressed);
      if Contributes(last, pressed) then Combine(rest, Some(last.effect.direction)) else rest
  }

  /** The inner loop of `move_players`, accumulating `delta` over the
      player's controls in order. */
  method PressedDelta(controls: seq<Control>, pressed: set<Key>) returns (delta: Option<Vec3>)
    ensures delta == PressedSum(controls, pressed)
  {
    delta := None;
    for i := 0 to |controls|
      invariant delta == PressedSum(controls[..i], pressed)
    {
      var control := controls[i];
      if control.effect.Move? {
        if control.key in pressed {
          delta := match delta
            case Some(d) => Some(Add3(d, control.effect.direction))
            case None => Some(control.effect.direction);
        }
      }
      assert controls[..i + 1][..i] == controls[..i];
    }
    assert controls[..|controls|] == controls;
  }

  lemma {:induction false} PressedSumConcat(a: seq<Control>, b: seq<Control>, pressed: set<Key>)
    ensures PressedSum(a + b, pressed) == Combine(PressedSum(a, pressed), PressedSum(b, pressed))
    decreases |b|
  {
    if b == [] {
      assert a + b == a;
    } else {
      var b' := b[..|b| - 1];
      assert (a + b)[..|a + b| - 1] == a + b';
      assert (a + b)[|a + b| - 1] == b[|b| - 1];
      PressedSumConcat(a, b', pressed);
    }
  }

  /** The order of the controls does not matter: the pressed directions are
      summed. */
  lemma PressedSumOrderIndependent(a: seq<Control>, b: seq<Control>, pressed: set<Key>)
    ensures PressedSum(a + b, pressed) == PressedSum(b + a, pressed)
  {
    PressedSumConcat(a, b, pressed);
    PressedSumConcat(b, a, pressed);
  }

  /** The paddle position before the clamp: moved along the normalised sum
      `delta` at the paddle's speed for `dt`. */
  function Pushed(translation: Vec3, delta: Vec3, paddle: Paddle, dt: real, normalize: Vec3 -> Vec3): Vec3 {
    Add3(translation, Scale3(Scale3(normalize(delta), paddle.speed), dt))
  }

  /** The paddle position after one tick of input: unchanged when no move
      control is pressed; otherwise moved along the normalised sum at the
      paddle's speed for `dt` and clamped into the paddle's bounds, so a move
      that stays inside the bounds is taken in full. */
  function MovePaddle(translation: Vec3, player: Player, paddle: Paddle, pressed: set<Key>,
                      dt: real, normalize: Vec3 -> Vec3): (r: Vec3)
    ensures PressedSum(player.controls, pressed).None? ==> r == translation
    ensures PressedSum(player.controls, pressed).Some? && Ordered3(paddle.negBounds, paddle.posBounds) ==>
      Within3(r, paddle.negBounds, paddle.posBounds)
    ensures forall d ::
      (PressedSum(player.controls, pressed) == Some(d)
       && Within3(Pushed(translation, d, paddle, dt, normalize), paddle.negBounds, paddle.posBounds))
      ==> r == Pushed(translation, d, paddle, dt, normalize)
    ensures forall d :: PressedSum(player.controls, pressed) == Some(d) ==>
      r == Clamp3(Pushed(translation, d, paddle, dt, normalize), paddle.negBounds, paddle.posBounds)
    ensures PressedSum(player.controls, pressed) == Some(Zero3) && FixesZero3(normalize) ==>
      r == Clamp3(translation, paddle.negBounds, paddle.posBounds)
  {
    match PressedSum(player.controls, pressed)
    case None => translation
    case Some(delta) => Clamp3(Pushed(translation, delta, paddle, dt, normalize), paddle.negBounds, paddle.posBounds)
  }

  /** One entity after `move_players`: a player's paddle is moved, every other
      entity is left alone. */
  function MoveEntity(e: Entity, pressed: set<Key>, dt: real, normalize: Vec3 -> Vec3): Entity {
    if e.player.Some? && e.paddle.Some?
    then e.(translation := MovePaddle(e.translation, e.player.value, e.paddle.value, pressed, dt, normalize))
    else e
  }

  /** The store after `move_players`. */
  function MoveAll(es: seq<Entity>, pressed: set<Key>, dt: real, normalize: Vec3 -> Vec3): (r: seq<Entity>)
    ensures |r| == |es|
  {
    seq(|es|, j requires 0 <= j < |es| => MoveEntity(es[j], pressed, dt, normalize))
  }

  // ---------------------------------------------------------------------
  // Integration (src/main.rs:461-472)
  // ---------------------------------------------------------------------

  /** The position after moving for `dt` at velocity `v`; z is not touched. */
  function Advance(t: Vec3, v: Vec2, dt: real): Vec3 {
    Vec3(t.x + v.x * dt, t.y + v.y * dt, t.z)
  }

  /** One entity after `apply_velocity`: an entity with a velocity moves by
      velocity times `dt` in x and y; a ball is then clamped into the ball
      bounds. Nothing but the position changes. */
  function Integrate(e: Entity, dt: real, lo: Vec3, hi: Vec3): (r: Entity)
    ensures r.(translation := e.translation) == e
    ensures e.velocity.None? ==> r == e
    ensures e.velocity.Some? && !e.ball ==> r.translation == Advance(e.translation, e.velocity.value, dt)
    ensures e.velocity.Some? && !e.ball ==> r.translation.z == e.translation.z
    ensures e.velocity.Some? && e.ball && Ordered3(lo, hi) ==> Within3(r.translation, lo, hi)
    ensures e.velocity.Some? && e.ball && Within3(Advance(e.translation, e.velocity.value, dt), lo, hi) ==>
      r.translation == Advance(e.translation, e.velocity.value, dt)
    ensures e.velocity.Some? && e.ball ==> r.translation == Clamp3(Advance(e.translation, e.velocity.value, dt), lo, hi)
  {
    match e.velocity
    case None => e
    case Some(v) =>
      var t := Advance(e.translation, v, dt);
      e.(translation := if e.ball then Clamp3(t, lo, hi) else t)
  }

  /** The store after `apply_velocity`. */
  function IntegrateAll(es: seq<Entity>, dt: real, lo: Vec3, hi: Vec3): (r: seq<Entity>)
    ensures |r| == |es|
  {
    seq(|es|, j requires 0 <= j < |es| => Integrate(es[j], dt, lo, hi))
  }

  // ---------------------------------------------------------------------
  // Velocity renormalisation (src/main.rs:455-459)
  // ---------------------------------------------------------------------

  /** One entity after `update_velocity`: its velocity becomes the normalised
      velocity scaled to the global speed; only the velocity changes, and a
      zero velocity stays zero. */
  function Renormalize(e: Entity, speed: real, normalize: Vec2 -> Vec2): (r: Entity)
    ensures r.(velocity := e.velocity) == e
    ensures e.velocity.None? <==> r.velocity.None?
    ensures e.velocity == Some(Zero2) && FixesZero2(normalize) ==> r.velocity == Some(Zero2)
  {
    match e.velocity
    case None => e
    case Some(v) => e.(velocity := Some(Scale2(normalize(v), speed)))
  }

  /** The store after `update_velocity`. */
  function RenormalizeAll(es: seq<Entity>, speed: real, normalize: Vec2 -> Vec2): (r: seq<Entity>)
    ensures |r| == |es|
  {
    seq(|es|, j requires 0 <= j < |es| => Renormalize(es[j], speed, normalize))
  }
}

/** The entity components of `src/types.rs` (module `components`) and the
    pure wall geometry (`Wall::translation`, `Wall::scale`, `get_extreme`). */
module Components {
  import opened Wrappers
  import opened Vectors

  type EntityId = nat

  /** Stands in for a keyboard key (`MyKeyCode`); which keys are pressed is
      supplied to the simulation as a set of keys. */
  type Key = nat

  datatype Effect = Move(direction: Vec3) | Nothing

  datatype Control = Control(key: Key, effect: Effect)

  datatype Player = Player(controls: seq<Control>)

  /** The parts of a paddle that the simulation reads. `neg_bounds` and
      `pos_bounds` are called at src/main.rs:448-449 but their definitions are
      not part of this model, so their results are stored here. */
  datatype Paddle = Paddle(speed: real, negBounds: Vec3, posBounds: Vec3)

  /** One entity of the store and the components it owns. The wall component
      is matched at src/main.rs:513 as a tuple struct holding the wall's
      identifier, which is compared with `wall_that_gives_points`; the record
      declared at src/types.rs:103 does not fit that use, so the identifier is
      what is kept here. */
  datatype Entity = Entity(
    id: EntityId,
    translation: Vec3,
    scale: Vec3,
    velocity: Option<Vec2>,
    ball: bool,
    collider: bool,
    brick: bool,
    wall: Option<nat>,
    player: Option<Player>,
    paddle: Option<Paddle>)

  // ---------------------------------------------------------------------
  // Wall geometry (src/types.rs:102-182)
  // ---------------------------------------------------------------------

  /** The wall record: a segment between two ends, thickened on both sides. */
  datatype Wall = Wall(endA: Vec2, endB: Vec2, thickness: real)

  /** `Wall::translation`: the centre of the wall is the midpoint of its ends. */
  function Translation(w: Wall): (r: Vec2)
    ensures r.x - w.endA.x == w.endB.x - r.x
    ensures r.y - w.endA.y == w.endB.y - r.y
  {
    Vec2((w.endA.x + w.endB.x) / 2.0, (w.endA.y + w.endB.y) / 2.0)
  }

  /** glam's `Vec2::perp`: the vector rotated by a quarter turn. */
  function Perp(v: Vec2): Vec2 { Vec2(-v.y, v.x) }

  /** The four corners `(bottom_left, bottom_right, top_left, top_right)` of
      the thickened wall; `right` is computed as three quarter turns of the
      direction, which puts every corner pair symmetrically around its end. */
  function Corners(w: Wall, normalize: Vec2 -> Vec2): (r: seq<Vec2>)
    ensures |r| == 4
    ensures Sub2(r[1], w.endA) == Neg2(Sub2(r[0], w.endA))
    ensures Sub2(r[3], w.endB) == Neg2(Sub2(r[2], w.endB))
  {
    var dir := normalize(Sub2(w.endB, w.endA));
    var left := Perp(dir);
    var right := Perp(Perp(Perp(dir)));
    [ Add2(w.endA, Scale2(left, w.thickness)),
      Add2(w.endA, Scale2(right, w.thickness)),
      Add2(w.endB, Scale2(left, w.thickness)),
      Add2(w.endB, Scale2(right, w.thickness)) ]
  }

  datatype Coordinate = X | Y
  datatype Extreme = Minimum | Maximum

  /** The discriminant of the source's `Coordinates` enum. */
  function CoordIndex(c: Coordinate): nat { if c == X then 0 else 1 }

  function Coord(v: Vec2, c: Coordinate): real { if c == X then v.x else v.y }

  /** The two assertions of `get_extreme` that may panic. */
  datatype ExtremePanic = NoVertices | CoordinateOutOfRange

  /** The smallest of a non-empty list of values. */
  function SeqMin(s: seq<real>): (r: real)
    requires |s| > 0
    ensures r in s
    ensures forall i :: 0 <= i < |s| ==> r <= s[i]
  {
    if |s| == 1 then s[0] else Min(s[0], SeqMin(s[1..]))
  }

  /** The largest of a non-empty list of values. */
  function SeqMax(s: seq<real>): (r: real)
    requires |s| > 0
    ensures r in s
    ensures forall i :: 0 <= i < |s| ==> s[i] <= r
  {
    if |s| == 1 then s[0] else Max(s[0], SeqMax(s[1..]))
  }

  function Coords(vs: seq<Vec2>, c: Coordinate): (r: seq<real>)
    ensures |r| == |vs| && forall i :: 0 <= i < |vs| ==> r[i] == Coord(vs[i], c)
  {
    seq(|vs|, i requires 0 <= i < |vs| => Coord(vs[i], c))
  }

  /** `get_extreme`: panics on an empty vertex list and when the coordinate's
      index is not below the number of vertices; otherwise the minimum (or
      maximum) of that coordinate over all vertices, attained by one of them. */
  function GetExtreme(vs: seq<Vec2>, e: Extreme, c: Coordinate): (r: Result<real, ExtremePanic>)
    ensures r.Ok? <==> |vs| > 0 && CoordIndex(c) < |vs|
    ensures |vs| == 0 ==> r == Err(NoVertices)
    ensures r.Ok? ==> exists i :: 0 <= i < |vs| && Coord(vs[i], c) == r.value
    ensures r.Ok? && e == Minimum ==> forall i :: 0 <= i < |vs| ==> r.value <= Coord(vs[i], c)
    ensures r.Ok? && e == Maximum ==> forall i :: 0 <= i < |vs| ==> Coord(vs[i], c) <= r.value
  {
    if |vs| == 0 then Err(NoVertices)
    else if CoordIndex(c) >= |vs| then Err(CoordinateOutOfRange)
    else
      var cs := Coords(vs, c);
      Ok(if e == Minimum then SeqMin(cs) else SeqMax(cs))
  }

  /** `Wall::scale`: the extent of the bounding box of the four corners. */
  function Scale(w: Wall, normalize: Vec2 -> Vec2): (r: Vec2)
    ensures r.x >= 0.0 && r.y >= 0.0
    ensures var cs := Corners(w, normalize);
      forall i, j :: 0 <= i < 4 && 0 <= j < 4 ==> cs[i].x - cs[j].x <= r.x && cs[i].y - cs[j].y <= r.y
    ensures var cs := Corners(w, normalize);
      (exists i, j :: 0 <= i < 4 && 0 <= j < 4 && cs[i].x - cs[j].x == r.x)
      && (exists i, j :: 0 <= i < 4 && 0 <= j < 4 && cs[i].y - cs[j].y == r.y)
  {
    Extent(Corners(w, normalize))
  }

  /** The width and height of the bounding box of four vertices, each the
      maximum minus the minimum of one coordinate found by `get_extreme`, and
      therefore non-negative. */
  function Extent(vs: seq<Vec2>): (r: Vec2)
    requires |vs| == 4
    ensures r.x >= 0.0 && r.y >= 0.0
    ensures forall i, j :: 0 <= i < 4 && 0 <= j < 4 ==> vs[i].x - vs[j].x <= r.x && vs[i].y - vs[j].y <= r.y
    ensures (exists i, j :: 0 <= i < 4 && 0 <= j < 4 && vs[i].x - vs[j].x == r.x)
            && (exists i, j :: 0 <= i < 4 && 0 <= j < 4 && vs[i].y - vs[j].y == r.y)
  {
    var xMin := GetExtreme(vs, Minimum, X).value;
    var xMax := GetExtreme(vs, Maximum, X).value;
    var yMin := GetExtreme(vs, Minimum, Y).value;
    var yMax := GetExtreme(vs, Maximum, Y).value;
    Vec2(xMax - xMin, yMax - yMin)
  }

  /** A wall whose two ends coincide has an empty bounding box: the direction
      normalises to zero, so all four corners are the common end. */
  lemma DegenerateWallHasZeroScale(w: Wall, normalize: Vec2 -> Vec2)
    requires FixesZero2(normalize)
    requires w.endA == w.endB
    ensures Scale(w, normalize) == Zero2
  {
    CornersOfDegenerateWall(w, normalize);
    ExtentOfPoint(w.endA);
  }

  lemma CornersOfDegenerateWall(w: Wall, normalize: Vec2 -> Vec2)
    requires FixesZero2(normalize)
    requires w.endA == w.endB
    ensures Corners(w, normalize) == [w.endA, w.endA, w.endA, w.endA]
  {
    var dir := normalize(Sub2(w.endB, w.endA));
    assert dir == Zero2 by { assert Sub2(w.endB, w.endA) == Zero2; }
    assert Perp(dir) == Zero2 && Perp(Perp(Perp(dir))) == Zero2;
    assert Scale2(Zero2, w.thickness) == Zero2;
  }

  /** Four copies of one point span a box of zero width and height. */
  lemma ExtentOfPoint(p: Vec2)
    ensures Extent([p, p, p, p]) == Zero2
  {
    var vs := [p, p, p, p];
    ExtremeOfConstant(vs, p, Minimum, X);
    ExtremeOfConstant(vs, p, Maximum, X);
    ExtremeOfConstant(vs, p, Minimum, Y);
    ExtremeOfConstant(vs, p, Maximum, Y);
  }

  /** Over vertices that all equal `p`, either extreme of a coordinate is `p`'s. */
  lemma ExtremeOfConstant(vs: seq<Vec2>, p: Vec2, e: Extreme, c: Coordinate)
    requires 2 <= |vs| && forall i :: 0 <= i < |vs| ==> vs[i] == p
    ensures GetExtreme(vs, e, c) == Ok(Coord(p, c))
  {
    var r := GetExtreme(vs, e, c);
    var i :| 0 <= i < |vs| && Coord(vs[i], c) == r.value;
  }

  /** Three quarter turns are the opposite of one quarter turn: `right` is `-left`. */
  lemma RightIsNegatedLeft(v: Vec2)
    ensures Perp(Perp(Perp(v))) == Neg2(Perp(v))
  {
  }
}

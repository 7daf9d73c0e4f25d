/** The per-paddle parameters of src/parameters.rs and their validation,
    `ParametersPaddles::get_verified`. */
module Parameters {
  import opened Wrappers
  import opened Vectors

  const MinRgbaValue: real := 0.0
  const MaxRgbaValue: real := 1.0

  datatype Rgba = Rgba(r: real, g: real, b: real, a: real)

  /** One vector per attribute; the `i`-th entry of each belongs to paddle `i`. */
  datatype ParametersPaddles = ParametersPaddles(
    n: nat,
    width: seq<real>,
    height: seq<real>,
    x: seq<real>,
    y: seq<real>,
    z: seq<real>,
    bounds: seq<seq<(real, real)>>,
    speed: seq<real>,
    colorRgba: seq<Rgba>,
    wallGivesPoints: seq<nat>)

  /** The fields of the record in declaration order, the order in which
      `iter_fields` visits them. */
  datatype Field = N | Width | Height | X | Y | Z | Bounds | Speed | ColorRgba | WallGivesPoints

  const Fields: seq<Field> := [N, Width, Height, X, Y, Z, Bounds, Speed, ColorRgba, WallGivesPoints]

  /** Why `get_verified` panics. */
  datatype Panic = LengthMismatch(field: Field) | ZeroWidth(index: nat) | ZeroHeight(index: nat)

  /** `ParametersPaddles::new`: two paddles at x = -100 and x = 100. */
  function New(): (p: ParametersPaddles)
    ensures p.n == 2
    ensures |p.width| == |p.height| == |p.x| == |p.y| == |p.z| == |p.bounds| == |p.speed| == |p.colorRgba| == 2
    ensures forall i :: 0 <= i < 2 ==> p.width[i] != 0.0 && p.height[i] != 0.0
  {
    ParametersPaddles(
      2,
      [20.0, 20.0],
      [120.0, 120.0],
      [-100.0, 100.0],
      [0.0, 0.0],
      [0.0, 0.0],
      [[(-100.0, -100.0), (-100.0, 100.0)], [(100.0, -100.0), (100.0, 100.0)]],
      [500.0, 500.0],
      [Rgba(0.3, 0.3, 0.7, 1.0), Rgba(0.3, 0.3, 0.7, 1.0)],
      [0, 2])
  }

  /** The length a field has when `downcast_ref` recognises it as one of the
      three vector types the loop checks (`Vec<f32>`, `Vec<Vec<(f32, f32)>>`,
      `Vec<(f32, f32, f32, f32)>`); `n` (a `usize`) and `wall_gives_points`
      (a `Vec<usize>`) match none of them and are skipped. */
  function CheckedLength(s: ParametersPaddles, f: Field): Option<nat> {
    match f
    case N => None
    case Width => Some(|s.width|)
    case Height => Some(|s.height|)
    case X => Some(|s.x|)
    case Y => Some(|s.y|)
    case Z => Some(|s.z|)
    case Bounds => Some(|s.bounds|)
    case Speed => Some(|s.speed|)
    case ColorRgba => Some(|s.colorRgba|)
    case WallGivesPoints => None
  }

  predicate FieldOk(s: ParametersPaddles, f: Field) {
    CheckedLength(s, f).None? || CheckedLength(s, f).value == s.n
  }

  /** Every checked vector has one entry per paddle; for `bounds` only the
      outer length counts, and `wall_gives_points` is not checked at all. */
  predicate LengthsMatch(s: ParametersPaddles) {
    |s.width| == s.n && |s.height| == s.n && |s.x| == s.n && |s.y| == s.n && |s.z| == s.n
    && |s.bounds| == s.n && |s.speed| == s.n && |s.colorRgba| == s.n
  }

  /** The first field, in declaration order, whose length assertion fails. */
  function FirstMismatch(s: ParametersPaddles): (r: Option<Field>)
    ensures r.None? <==> LengthsMatch(s)
    ensures r.Some? ==> !FieldOk(s, r.value)
    ensures r.Some? ==>
      exists k :: 0 <= k < |Fields| && Fields[k] == r.value && forall j :: 0 <= j < k ==> FieldOk(s, Fields[j])
  {
    FirstMismatchFrom(s, 0)
  }

  function FirstMismatchFrom(s: ParametersPaddles, k: nat): (r: Option<Field>)
    requires k <= |Fields|
    ensures r.None? <==> forall j :: k <= j < |Fields| ==> FieldOk(s, Fields[j])
    ensures r.Some? ==> !FieldOk(s, r.value)
    ensures r.Some? ==>
      exists m :: k <= m < |Fields| && Fields[m] == r.value && forall j :: k <= j < m ==> FieldOk(s, Fields[j])
    decreases |Fields| - k
  {
    if k == |Fields| then None
    else if !FieldOk(s, Fields[k]) then Some(Fields[k])
    else FirstMismatchFrom(s, k + 1)
  }

  /** The `map` over widths (or heights): the first zero entry panics,
      otherwise every entry is replaced by its absolute value. */
  function AbsNonZero(v: seq<real>): (r: Result<seq<real>, nat>)
    ensures r.Ok? <==> forall i :: 0 <= i < |v| ==> v[i] != 0.0
    ensures r.Ok? ==> |r.value| == |v| && forall i :: 0 <= i < |v| ==> r.value[i] == Abs(v[i]) && r.value[i] > 0.0
    ensures r.Err? ==> r.error < |v| && v[r.error] == 0.0 && forall i :: 0 <= i < r.error ==> v[i] != 0.0
  {
    if v == [] then Ok([])
    else if v[0] == 0.0 then Err(0)
    else match AbsNonZero(v[1..])
      case Err(i) => Err(i + 1)
      case Ok(rest) => Ok([Abs(v[0])] + rest)
  }

  /** The `map` over speeds: every entry becomes its absolute value. */
  function AbsAll(v: seq<real>): (r: seq<real>)
    ensures |r| == |v| && forall i :: 0 <= i < |v| ==> r[i] == Abs(v[i]) && r[i] >= 0.0
  {
    seq(|v|, i requires 0 <= i < |v| => Abs(v[i]))
  }

  /** One colour with every component clamped into `[MIN_RGBA_VALUE,
      MAX_RGBA_VALUE]`: the result is in range, and a component already in
      range is kept. */
  function ClampRgba(c: Rgba): (r: Rgba)
    ensures InUnitRange(r)
    ensures 0.0 <= c.r <= 1.0 ==> r.r == c.r
    ensures 0.0 <= c.g <= 1.0 ==> r.g == c.g
    ensures 0.0 <= c.b <= 1.0 ==> r.b == c.b
    ensures 0.0 <= c.a <= 1.0 ==> r.a == c.a
    ensures c.r < 0.0 ==> r.r == 0.0
    ensures c.r > 1.0 ==> r.r == 1.0
    ensures c.g < 0.0 ==> r.g == 0.0
    ensures c.g > 1.0 ==> r.g == 1.0
    ensures c.b < 0.0 ==> r.b == 0.0
    ensures c.b > 1.0 ==> r.b == 1.0
    ensures c.a < 0.0 ==> r.a == 0.0
    ensures c.a > 1.0 ==> r.a == 1.0
  {
    Rgba(Clamp(c.r, MinRgbaValue, MaxRgbaValue), Clamp(c.g, MinRgbaValue, MaxRgbaValue),
         Clamp(c.b, MinRgbaValue, MaxRgbaValue), Clamp(c.a, MinRgbaValue, MaxRgbaValue))
  }

  predicate InUnitRange(c: Rgba) {
    0.0 <= c.r <= 1.0 && 0.0 <= c.g <= 1.0 && 0.0 <= c.b <= 1.0 && 0.0 <= c.a <= 1.0
  }

  /** The `map` over colours: every component is clamped into `[0, 1]`. */
  function ClampAll(v: seq<Rgba>): (r: seq<Rgba>)
    ensures |r| == |v| && forall i :: 0 <= i < |v| ==> r[i] == ClampRgba(v[i]) && InUnitRange(r[i])
    ensures forall i :: 0 <= i < |v| && InUnitRange(v[i]) ==> r[i] == v[i]
  {
    seq(|v|, i requires 0 <= i < |v| => ClampRgba(v[i]))
  }

  /** What `get_verified` computes from a parameter record: the first failed
      assertion, or the record with widths and heights made positive, speeds
      made non-negative and colours clamped; every other field passes
      through. */
  function Verified(s: ParametersPaddles): (r: Result<ParametersPaddles, Panic>)
    ensures r.Ok? <==> (
      && LengthsMatch(s)
      && (forall i :: 0 <= i < |s.width| ==> s.width[i] != 0.0)
      && (forall i :: 0 <= i < |s.height| ==> s.height[i] != 0.0))
    ensures !LengthsMatch(s) ==> r.Err? && r.error.LengthMismatch?
    ensures r.Err? && r.error.LengthMismatch? ==> FirstMismatch(s) == Some(r.error.field)
    ensures LengthsMatch(s) && (exists i :: 0 <= i < |s.width| && s.width[i] == 0.0) ==>
      r.Err? && r.error.ZeroWidth?
    ensures (LengthsMatch(s) && (forall i :: 0 <= i < |s.width| ==> s.width[i] != 0.0)
             && exists i :: 0 <= i < |s.height| && s.height[i] == 0.0) ==>
      r.Err? && r.error.ZeroHeight?
    ensures r.Err? && r.error.ZeroWidth? ==> (
      && LengthsMatch(s) && r.error.index < |s.width| && s.width[r.error.index] == 0.0
      && forall j :: 0 <= j < r.error.index ==> s.width[j] != 0.0)
    ensures r.Err? && r.error.ZeroHeight? ==> (
      && LengthsMatch(s) && (forall j :: 0 <= j < |s.width| ==> s.width[j] != 0.0)
      && r.error.index < |s.height| && s.height[r.error.index] == 0.0
      && forall j :: 0 <= j < r.error.index ==> s.height[j] != 0.0)
    ensures r.Ok? ==> var p := r.value;
      && p.n == s.n && p.x == s.x && p.y == s.y && p.z == s.z
      && p.bounds == s.bounds && p.wallGivesPoints == s.wallGivesPoints
      && LengthsMatch(p)
      && (forall i :: 0 <= i < s.n ==> p.width[i] == Abs(s.width[i]) && p.width[i] > 0.0)
      && (forall i :: 0 <= i < s.n ==> p.height[i] == Abs(s.height[i]) && p.height[i] > 0.0)
      && (forall i :: 0 <= i < s.n ==> p.speed[i] == Abs(s.speed[i]) && p.speed[i] >= 0.0)
      && (forall i :: 0 <= i < s.n ==> p.colorRgba[i] == ClampRgba(s.colorRgba[i]) && InUnitRange(p.colorRgba[i]))
  {
    match FirstMismatch(s)
    case Some(f) => Err(LengthMismatch(f))
    case None =>
      match AbsNonZero(s.width)
      case Err(i) => Err(ZeroWidth(i))
      case Ok(width) =>
        match AbsNonZero(s.height)
        case Err(i) => Err(ZeroHeight(i))
        case Ok(height) =>
          Ok(s.(width := width, height := height, speed := AbsAll(s.speed), colorRgba := ClampAll(s.colorRgba)))
  }

  /** `get_verified`, run on a given record (the source runs it on
      `Self::new()`; `s` is not declared `mut` at src/parameters.rs:39 although
      it is reassigned below, so the evident intent is a mutable copy). A
      loop over the fields asserts their lengths, then the widths, heights,
      speeds and colours are replaced by their normalised forms. */
  method GetVerified(s0: ParametersPaddles) returns (r: Result<ParametersPaddles, Panic>)
    ensures r == Verified(s0)
  {
    var s := s0;
    for k := 0 to |Fields|
      invariant FirstMismatch(s) == FirstMismatchFrom(s, k)
    {
      var len := CheckedLength(s, Fields[k]);
      if len.Some? && len.value != s.n {
        return Err(LengthMismatch(Fields[k]));
      }
    }
    var width := AbsNonZero(s.width);
    if width.Err? {
      return Err(ZeroWidth(width.error));
    }
    var height := AbsNonZero(s.height);
    if height.Err? {
      return Err(ZeroHeight(height.error));
    }
    s := s.(width := width.value);
    s := s.(height := height.value);
    s := s.(speed := AbsAll(s.speed));
    s := s.(colorRgba := ClampAll(s.colorRgba));
    return Ok(s);
  }

  /** Verifying an already verified record gives it back unchanged: absolute
      value and clamping are idempotent. */
  lemma {:induction false} VerifiedIsIdempotent(s: ParametersPaddles)
    requires Verified(s).Ok?
    ensures Verified(Verified(s).value) == Verified(s)
  {
    var p := Verified(s).value;
    assert forall i :: 0 <= i < |p.width| ==> p.width[i] != 0.0;
    assert forall i :: 0 <= i < |p.height| ==> p.height[i] != 0.0;
    var q := Verified(p).value;
    assert q.width == p.width;
    assert q.height == p.height;
    assert q.speed == p.speed;
    assert q.colorRgba == p.colorRgba;
  }

  /** The defaults of `new()` pass verification unchanged. */
  lemma DefaultIsVerified()
    ensures Verified(New()) == Ok(New())
  {
    var p := New();
    var q := Verified(p).value;
    assert q.width == p.width;
    assert q.height == p.height;
    assert q.speed == p.speed;
    assert q.colorRgba == p.colorRgba;
  }

  /** The length of `wall_gives_points` never influences the verdict: a record
      whose `wall_gives_points` has any length passes exactly when the record
      with its original vector does. */
  lemma WallGivesPointsUnchecked(s: ParametersPaddles, w: seq<nat>)
    ensures Verified(s.(wallGivesPoints := w)).Ok? <==> Verified(s).Ok?
  {
  }
}

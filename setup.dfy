/** The brick-grid arithmetic of `setup` (src/main.rs:304-418): how many
    rows and columns of bricks fit between a side wall and the paddle, where
    the two grids (left and right) are centred, and the position of every
    brick spawned. The source computes in `i32`; here integers are unbounded
    and Rust's truncating division and `as i32` casts are written out. */
module Setup {
  import opened Wrappers
  import opened Vectors

  /** Rust's `/` on integers: the quotient truncated toward zero. */
  function TDiv(a: int, b: int): (q: int)
    requires b != 0
    ensures a >= 0 && b > 0 ==> q == a / b
    ensures (a >= 0) == (b > 0) || a == 0 ==> q >= 0
    ensures (a >= 0) != (b > 0) ==> q <= 0
  {
    if b > 0 then (if a >= 0 then a / b else -((-a) / b))
    else (if a >= 0 then -(a / (-b)) else (-a) / (-b))
  }

  /** Truncating division is odd in its dividend, unlike Euclidean division
      (TDiv(-7, 2) == -3 while -7 / 2 == -4). */
  lemma TDivOdd(a: int, b: int)
    requires b != 0
    ensures TDiv(-a, b) == -TDiv(a, b)
  {
  }

  /** `x as i32` for a float: truncation toward zero (saturation at the
      bounds of `i32` is not modelled). */
  function TruncReal(x: real): (r: int)
    ensures x >= 0.0 ==> 0 <= r && r as real <= x < r as real + 1.0
    ensures x < 0.0 ==> r <= 0 && r as real - 1.0 < x <= r as real
  {
    if x >= 0.0 then x.Floor else -((-x).Floor)
  }

  /** The integer parameters `setup` reads. `left_bound` and `right_bound` of
      the paddle parameters are not part of this model; their results are
      given here. */
  datatype Arena = Arena(
    xLeftWall: int, xRightWall: int, yDownWall: int, yUpWall: int, wallThickness: int,
    paddleLeftBound: int, paddleRightBound: int,
    gapBetweenBricks: int, brickWidth: int, brickHeight: int,
    minGapBricksVerticalWalls: int, minGapBricksHorizontalWalls: int, minGapPaddleBricks: int)

  /** Where the grids go: the number of rows and columns, the centre of the
      first brick of each grid, and the distance between neighbouring bricks. */
  datatype BrickLayout = BrickLayout(
    nRows: int, nColumns: int,
    leftOffsetX: int, rightOffsetX: int, offsetY: int,
    stepX: int, stepY: int)

  /** The division by zero that panics when a brick side plus the gap is 0. */
  datatype SetupPanic = DivisionByZero

  /** The inner face of the left wall. */
  function LeftWallBorder(a: Arena): int { a.xLeftWall + TDiv(a.wallThickness, 2) }

  /** The inner face of the right wall, as the other three walls compute
      theirs: half the thickness towards the arena. */
  function RightWallBorder(a: Arena): int { a.xRightWall - TDiv(a.wallThickness, 2) }

  /** `x_border_right_wall` as written at src/main.rs:318: half the thickness
      is added, which gives the outer face of the right wall. */
  function RightWallBorderAsWritten(a: Arena): int { a.xRightWall + TDiv(a.wallThickness, 2) }

  function LeftRegionCenter(a: Arena): int { TDiv(LeftWallBorder(a) + a.paddleLeftBound, 2) }

  function RightRegionCenter(a: Arena, xBorderRightWall: int): int { TDiv(xBorderRightWall + a.paddleRightBound, 2) }

  function TotalWidth(a: Arena): int {
    (a.paddleLeftBound - LeftWallBorder(a)) - a.minGapBricksVerticalWalls - a.minGapPaddleBricks
  }

  function TotalHeight(a: Arena): int {
    ((a.yUpWall - TDiv(a.wallThickness, 2)) - (a.yDownWall + TDiv(a.wallThickness, 2)))
    - 2 * a.minGapBricksHorizontalWalls
  }

  /** `(total + gap) / (size + gap)`: how many items of `size`, separated by
      `gap`, are placed in `total`. With a positive pitch and room for at
      least nothing, that many items and the gaps between them fit in
      `total`, and one more would not. */
  function FitCount(total: int, size: int, gap: int): (n: int)
    requires size + gap != 0
    ensures size + gap > 0 && total + gap >= 0 ==>
      n >= 0 && n * size + (n - 1) * gap <= total && total < (n + 1) * size + n * gap
  {
    var n := TDiv(total + gap, size + gap);
    assert size + gap > 0 && total + gap >= 0 ==> n * (size + gap) <= total + gap < n * (size + gap) + size + gap;
    n
  }

  /** `(n as f32 / 2. * size as f32) as i32`: half of `n * size`, truncated
      toward zero. */
  function HalfSpan(n: int, size: int): (r: int)
    ensures 0 <= n * size ==> 0 <= 2 * r <= n * size < 2 * r + 2
    ensures n * size < 0 ==> 2 * r - 2 < n * size <= 2 * r <= 0
  {
    var x := (n as real) / 2.0 * (size as real);
    assert x == ((n * size) as real) / 2.0;
    TruncReal(x)
  }

  /** The layout for a given right-wall border. */
  function LayoutWith(a: Arena, xBorderRightWall: int): (r: Result<BrickLayout, SetupPanic>)
    ensures r.Err? <==> a.brickWidth + a.gapBetweenBricks == 0 || a.brickHeight + a.gapBetweenBricks == 0
    ensures r.Ok? ==> && r.value.nColumns == FitCount(TotalWidth(a), a.brickWidth, a.gapBetweenBricks)
                      && r.value.nRows == FitCount(TotalHeight(a), a.brickHeight, a.gapBetweenBricks)
    ensures r.Ok? ==> && r.value.stepX == a.brickWidth + a.gapBetweenBricks
                      && r.value.stepY == a.brickHeight + a.gapBetweenBricks
    ensures r.Ok? ==> r.value.rightOffsetX - r.value.leftOffsetX == RightRegionCenter(a, xBorderRightWall) - LeftRegionCenter(a)
  {
    var gap := a.gapBetweenBricks;
    if a.brickWidth + gap == 0 || a.brickHeight + gap == 0 then Err(DivisionByZero)
    else
      var nColumns := FitCount(TotalWidth(a), a.brickWidth, gap);
      var nRows := FitCount(TotalHeight(a), a.brickHeight, gap);
      var yTop := a.yUpWall - TDiv(a.wallThickness, 2);
      var yDown := a.yDownWall + TDiv(a.wallThickness, 2);
      var leftLeftEdge := LeftRegionCenter(a) - HalfSpan(nColumns, a.brickWidth) - HalfSpan(nColumns - 1, gap);
      var rightLeftEdge := RightRegionCenter(a, xBorderRightWall)
        - HalfSpan(nColumns, a.brickWidth) - HalfSpan(nColumns - 1, gap);
      var bottomEdge := TDiv(yTop + yDown, 2) - HalfSpan(nRows, a.brickHeight) - HalfSpan(nRows - 1, gap);
      Ok(BrickLayout(
        nRows, nColumns,
        leftLeftEdge + TDiv(a.brickWidth, 2), rightLeftEdge + TDiv(a.brickWidth, 2), bottomEdge + TDiv(a.brickHeight, 2),
        a.brickWidth + gap, a.brickHeight + gap))
  }

  /** The layout with the right wall's inner face, which the model uses: the
      right grid is the left grid moved by the distance between the centres
      of the two regions. */
  function Layout(a: Arena): (r: Result<BrickLayout, SetupPanic>)
    ensures r.Ok? <==> a.brickWidth + a.gapBetweenBricks != 0 && a.brickHeight + a.gapBetweenBricks != 0
    ensures r.Ok? ==> r.value.rightOffsetX - r.value.leftOffsetX == RightRegionCenter(a, RightWallBorder(a)) - LeftRegionCenter(a)
  {
    LayoutWith(a, RightWallBorder(a))
  }

  /** The layout exactly as src/main.rs:314-364 computes it. It differs from
      `Layout` only in the x of the right grid, which is shifted by the change
      in the right region's centre. */
  function LayoutAsWritten(a: Arena): (r: Result<BrickLayout, SetupPanic>)
    ensures r.Ok? <==> Layout(a).Ok?
    ensures r.Ok? ==> r.value.(rightOffsetX := Layout(a).value.rightOffsetX) == Layout(a).value
    ensures r.Ok? ==> r.value.rightOffsetX - Layout(a).value.rightOffsetX
                      == RightRegionCenter(a, RightWallBorderAsWritten(a)) - RightRegionCenter(a, RightWallBorder(a))
  {
    LayoutWith(a, RightWallBorderAsWritten(a))
  }

  /** The columns (and rows) of a layout fit between the side wall and the
      paddle (between the horizontal walls), gaps included, with no room for
      one more. */
  lemma LayoutFits(a: Arena)
    requires a.brickWidth + a.gapBetweenBricks > 0 && TotalWidth(a) + a.gapBetweenBricks >= 0
    requires a.brickHeight + a.gapBetweenBricks > 0 && TotalHeight(a) + a.gapBetweenBricks >= 0
    ensures Layout(a).Ok?
    ensures var l := Layout(a).value; var g := a.gapBetweenBricks;
      && 0 <= l.nColumns && l.nColumns * a.brickWidth + (l.nColumns - 1) * g <= TotalWidth(a)
      && TotalWidth(a) < (l.nColumns + 1) * a.brickWidth + l.nColumns * g
      && 0 <= l.nRows && l.nRows * a.brickHeight + (l.nRows - 1) * g <= TotalHeight(a)
      && TotalHeight(a) < (l.nRows + 1) * a.brickHeight + l.nRows * g
  {
  }

  /** An arena symmetric about x = 0: walls and paddle bounds mirror each other. */
  predicate Mirrored(a: Arena) {
    a.xRightWall == -a.xLeftWall && a.paddleRightBound == -a.paddleLeftBound
  }

  /** In a mirrored arena the right grid is centred on the mirror image of the
      left grid's centre. */
  lemma RightRegionMirrorsLeft(a: Arena)
    requires Mirrored(a)
    ensures RightRegionCenter(a, RightWallBorder(a)) == -LeftRegionCenter(a)
  {
    var s := LeftWallBorder(a) + a.paddleLeftBound;
    assert RightWallBorder(a) + a.paddleRightBound == -s;
    TDivOdd(s, 2);
  }

  /** In a mirrored arena the first brick of the right grid sits twice the
      left centre's distance from the first brick of the left grid, so the
      right grid is the left grid moved across the middle of the arena. */
  lemma RightGridOffsetMirrorsLeft(a: Arena)
    requires Mirrored(a) && Layout(a).Ok?
    ensures Layout(a).value.rightOffsetX == Layout(a).value.leftOffsetX - 2 * LeftRegionCenter(a)
  {
    RightRegionMirrorsLeft(a);
  }

  /** With the right-wall border as written, a mirrored arena (walls at
      x = -600 and x = 600, 10 thick, paddle bounds at -100 and 100) has its
      right grid centred at 352 instead of at 347, the mirror of the left
      centre -347. */
  lemma AsWrittenRightRegionOffCentre()
    ensures var a := Arena(-600, 600, -300, 300, 10, -100, 100, 1, 5, 10, 40, 20, 20);
      && Mirrored(a)
      && LeftRegionCenter(a) == -347
      && RightRegionCenter(a, RightWallBorderAsWritten(a)) == 352
      && RightRegionCenter(a, RightWallBorder(a)) == 347
      && LayoutAsWritten(a).Ok? && LayoutAsWritten(a).value.rightOffsetX == Layout(a).value.rightOffsetX + 5
  {
  }

  function Positive(n: int): nat { if n > 0 then n else 0 }

  /** How many bricks a grid of `nRows` by `nColumns` holds. */
  function GridSize(nRows: int, nColumns: int): nat { Positive(nRows) * Positive(nColumns) }

  /** The centre of the brick in row `row` and column `col` of a grid whose
      first brick is centred at `(x0, y0)`. */
  function BrickAt(x0: int, y0: int, stepX: int, stepY: int, row: int, col: int): Vec2 {
    Vec2((x0 + col * stepX) as real, (y0 + row * stepY) as real)
  }

  /** The index of row `r`, column `c` in a grid spawned row by row. */
  function Cell(nColumns: int, r: int, c: int): int { r * nColumns + c }

  lemma {:induction false} MulMonotone(a: int, b: int, n: nat)
    requires a <= b
    ensures a * n <= b * n
  {
    if n > 0 {
      MulMonotone(a, b, n - 1);
      assert a * n == a * (n - 1) + a && b * n == b * (n - 1) + b;
    }
  }

  /** Every cell of the rows before `row` comes before the first cell of `row`. */
  lemma CellBelowRow(nColumns: int, r: int, c: int, row: int)
    requires 0 <= r < row && 0 <= c < nColumns
    ensures 0 <= Cell(nColumns, r, c) < Cell(nColumns, row, 0)
  {
    MulMonotone(0, r, nColumns);
    MulMonotone(r + 1, row, nColumns);
    assert (r + 1) * nColumns == r * nColumns + nColumns;
  }

  /** One grid of `for row in 0..n_rows { for column in 0..n_columns { spawn } }`:
      the brick of row `r`, column `c` is the `Cell(nColumns, r, c)`-th spawned. */
  method SpawnGrid(nRows: int, nColumns: int, x0: int, y0: int, stepX: int, stepY: int)
    returns (grid: seq<Vec2>)
    ensures |grid| == GridSize(nRows, nColumns)
    ensures forall r, c :: 0 <= r < nRows && 0 <= c < nColumns ==>
      0 <= Cell(nColumns, r, c) < |grid| && grid[Cell(nColumns, r, c)] == BrickAt(x0, y0, stepX, stepY, r, c)
  {
    grid := [];
    var row := 0;
    while row < nRows
      invariant 0 <= row <= Positive(nRows)
      invariant |grid| == row * Positive(nColumns)
      invariant forall r, c :: 0 <= r < row && 0 <= c < nColumns ==>
        0 <= Cell(nColumns, r, c) < |grid| && grid[Cell(nColumns, r, c)] == BrickAt(x0, y0, stepX, stepY, r, c)
    {
      ghost var before := grid;
      var column := 0;
      while column < nColumns
        invariant 0 <= column <= Positive(nColumns)
        invariant |grid| == |before| + column && grid[..|before|] == before
        invariant forall c :: 0 <= c < column ==> grid[|before| + c] == BrickAt(x0, y0, stepX, stepY, row, c)
      {
        grid := grid + [BrickAt(x0, y0, stepX, stepY, row, column)];
        column := column + 1;
      }
      assert |grid| == (row + 1) * Positive(nColumns);
      forall r, c | 0 <= r < row + 1 && 0 <= c < nColumns
        ensures 0 <= Cell(nColumns, r, c) < |grid| && grid[Cell(nColumns, r, c)] == BrickAt(x0, y0, stepX, stepY, r, c)
      {
        if r < row {
          CellBelowRow(nColumns, r, c, row);
          assert grid[Cell(nColumns, r, c)] == before[Cell(nColumns, r, c)];
        } else {
          assert Cell(nColumns, r, c) == |before| + c;
        }
      }
      row := row + 1;
    }
  }

  /** All bricks `setup` spawns: the left grid then the right grid, each
      `nRows` by `nColumns`, so `2 * nRows * nColumns` in all (none when
      either count is not positive). Neighbours in a row are `stepX` apart in
      x at the same y, and neighbours in a column `stepY` apart in y. */
  method SpawnBricks(l: BrickLayout) returns (bricks: seq<Vec2>)
    ensures |bricks| == 2 * GridSize(l.nRows, l.nColumns)
    ensures forall r, c :: 0 <= r < l.nRows && 0 <= c < l.nColumns ==>
      && 0 <= Cell(l.nColumns, r, c) < GridSize(l.nRows, l.nColumns)
      && bricks[Cell(l.nColumns, r, c)] == BrickAt(l.leftOffsetX, l.offsetY, l.stepX, l.stepY, r, c)
      && bricks[GridSize(l.nRows, l.nColumns) + Cell(l.nColumns, r, c)]
         == BrickAt(l.rightOffsetX, l.offsetY, l.stepX, l.stepY, r, c)
    ensures forall r, c :: 0 <= r < l.nRows && 0 <= c && c + 1 < l.nColumns ==>
      && bricks[Cell(l.nColumns, r, c + 1)].x - bricks[Cell(l.nColumns, r, c)].x == l.stepX as real
      && bricks[Cell(l.nColumns, r, c + 1)].y == bricks[Cell(l.nColumns, r, c)].y
    ensures forall r, c :: 0 <= r && r + 1 < l.nRows && 0 <= c < l.nColumns ==>
      && bricks[Cell(l.nColumns, r + 1, c)].y - bricks[Cell(l.nColumns, r, c)].y == l.stepY as real
      && bricks[Cell(l.nColumns, r + 1, c)].x == bricks[Cell(l.nColumns, r, c)].x
  {
    var left := SpawnGrid(l.nRows, l.nColumns, l.leftOffsetX, l.offsetY, l.stepX, l.stepY);
    var right := SpawnGrid(l.nRows, l.nColumns, l.rightOffsetX, l.offsetY, l.stepX, l.stepY);
    bricks := left + right;
    var n := l.nColumns;
    var size := GridSize(l.nRows, n);
    forall r, c | 0 <= r < l.nRows && 0 <= c < n
      ensures && 0 <= Cell(n, r, c) < size
              && bricks[Cell(n, r, c)] == BrickAt(l.leftOffsetX, l.offsetY, l.stepX, l.stepY, r, c)
              && bricks[size + Cell(n, r, c)] == BrickAt(l.rightOffsetX, l.offsetY, l.stepX, l.stepY, r, c)
    {
      assert bricks[Cell(n, r, c)] == left[Cell(n, r, c)];
      assert bricks[size + Cell(n, r, c)] == right[Cell(n, r, c)];
    }
    forall r, c | 0 <= r < l.nRows && 0 <= c && c + 1 < n
      ensures && bricks[Cell(n, r, c + 1)].x - bricks[Cell(n, r, c)].x == l.stepX as real
              && bricks[Cell(n, r, c + 1)].y == bricks[Cell(n, r, c)].y
    {
      assert bricks[Cell(n, r, c + 1)] == left[Cell(n, r, c + 1)];
      assert bricks[Cell(n, r, c)] == left[Cell(n, r, c)];
    }
    forall r, c | 0 <= r && r + 1 < l.nRows && 0 <= c < n
      ensures && bricks[Cell(n, r + 1, c)].y - bricks[Cell(n, r, c)].y == l.stepY as real
              && bricks[Cell(n, r + 1, c)].x == bricks[Cell(n, r, c)].x
    {
      assert bricks[Cell(n, r + 1, c)] == left[Cell(n, r + 1, c)];
      assert bricks[Cell(n, r, c)] == left[Cell(n, r, c)];
    }
  }
}

/** The animated panel: each paint builds the shape factory for the panel's
    code, advances the wrap-around rotation counter and draws the shape once
    per cell of a grid laid over the usable area. The timer only asks for a
    repaint while no drawing is in progress.

    Rendering is reduced to "emit cell (i, j)"; the per-cell rotation, which
    is double arithmetic, is left out, and only the frame's base angle kept. */
module TitlesPanel {
  import opened Wrappers
  import JavaArith
  import SF = ShapeFactory

  // ---------------------------------------------------------------------
  // The rotation counter

  /** `startAngle++` followed by the reset to 0 once the counter passes 360. */
  function NextAngle(a: int): (b: int)
    ensures 0 <= a <= 360 ==> 0 <= b <= 360
    ensures 0 <= a <= 360 ==> (b == 0 <==> a == 360)
  {
    if a + 1 > 360 then 0 else a + 1
  }

  /** The counter after `n` paints of a fresh panel, which is also the base
      angle of paint number `n` (counting from 0). */
  function AngleAfter(n: nat): int {
    if n == 0 then 0 else NextAngle(AngleAfter(n - 1))
  }

  /** The base angles run 0, 1, ..., 360, 0, 1, ...: a period of 361 paints. */
  lemma {:induction false} AngleCycle(n: nat)
    ensures AngleAfter(n) == n % 361
  {
    if n > 0 {
      AngleCycle(n - 1);
      var q, r := (n - 1) / 361, (n - 1) % 361;
      assert n - 1 == 361 * q + r && 0 <= r < 361;
      if r == 360 {
        ModOf(n, q + 1, 0);
      } else {
        ModOf(n, q, r + 1);
      }
    }
  }

  /** A number written as `361 * q + r` with `0 <= r < 361` leaves remainder `r`. */
  lemma ModOf(n: int, q: int, r: int)
    requires n == 361 * q + r && 0 <= r < 361
    ensures n % 361 == r
  {
  }

  // ---------------------------------------------------------------------
  // The grid

  /** `(int) (size * 1.5)`: the cast truncates toward zero. */
  function GridStep(size: int): int {
    JavaArith.Quot(3 * size, 2)
  }

  lemma GridStepOfShape()
    ensures GridStep(SF.DefaultWidth) == 37 && GridStep(SF.DefaultHeight) == 37
  {
  }

  /** The values `first, first + step, ...` that lie below `limit`: the
      positions one of the drawing loops visits. */
  function Positions(first: int, step: int, limit: int): seq<int>
    requires step > 0
    decreases limit - first
  {
    if first >= limit then [] else [first] + Positions(first + step, step, limit)
  }

  /** Position `k` is `first + step * k`, and it exists exactly when that
      value is below the limit. */
  lemma {:induction false} PositionsAt(first: int, step: int, limit: int, k: nat)
    requires step > 0
    ensures k < |Positions(first, step, limit)| <==> first + step * k < limit
    ensures k < |Positions(first, step, limit)| ==> Positions(first, step, limit)[k] == first + step * k
    decreases limit - first
  {
    if first >= limit {
      assert step * k >= 0;
    } else if k > 0 {
      PositionsAt(first + step, step, limit, k - 1);
      assert step * k == step * (k - 1) + step;
    }
  }

  /** One row of cells: every column position paired with the row position. */
  function Row(y: int, xs: seq<int>): seq<(int, int)> {
    seq(|xs|, k requires 0 <= k < |xs| => (xs[k], y))
  }

  /** The rows `ys` one after another, each across all columns `xs`. */
  function Cells(ys: seq<int>, xs: seq<int>): seq<(int, int)> {
    if ys == [] then [] else Cells(ys[..|ys| - 1], xs) + Row(ys[|ys| - 1], xs)
  }

  /** The cells drawn in a usable area `w` by `h` for a shape `cellW` by
      `cellH`: rows from `cellH`, columns from `cellW`, each spaced by one and
      a half shape sizes. */
  function GridCells(w: int, h: int, cellW: int, cellH: int): seq<(int, int)>
    requires cellW > 0 && cellH > 0
  {
    Cells(Positions(cellH, GridStep(cellH), h), Positions(cellW, GridStep(cellW), w))
  }

  lemma {:induction false} CellsLength(ys: seq<int>, xs: seq<int>)
    ensures |Cells(ys, xs)| == |ys| * |xs|
    decreases |ys|
  {
    if ys != [] {
      CellsLength(ys[..|ys| - 1], xs);
      assert |ys| * |xs| == (|ys| - 1) * |xs| + |xs|;
    }
  }

  lemma MulMono(x: nat, y: nat, z: nat)
    requires x <= y
    ensures x * z <= y * z
  {
  }

  /** Row-major order: cell `(a, b)` sits at index `b * |xs| + a`. */
  lemma {:induction false} CellsAt(ys: seq<int>, xs: seq<int>, a: nat, b: nat)
    requires a < |xs| && b < |ys|
    ensures |Cells(ys, xs)| == |ys| * |xs|
    ensures b * |xs| + a < |Cells(ys, xs)|
    ensures Cells(ys, xs)[b * |xs| + a] == (xs[a], ys[b])
    decreases |ys|
  {
    CellsLength(ys, xs);
    var init := ys[..|ys| - 1];
    CellsLength(init, xs);
    if b < |ys| - 1 {
      CellsAt(init, xs, a, b);
      MulMono(b, |init| - 1, |xs|);
    } else {
      assert b == |init|;
    }
    MulMono(b, |ys| - 1, |xs|);
  }

  /** The grid drawn by one paint: `rows * cols` cells, and in row-major order
      cell `(a, b)` is `(cellW + stepW * a, cellH + stepH * b)`, present exactly
      when both coordinates lie inside the usable area. */
  lemma GridCharacterization(w: int, h: int, cellW: int, cellH: int, a: nat, b: nat)
    requires cellW > 0 && cellH > 0
    ensures var cols, rows := Positions(cellW, GridStep(cellW), w), Positions(cellH, GridStep(cellH), h);
      && |GridCells(w, h, cellW, cellH)| == |rows| * |cols|
      && (a < |cols| && b < |rows| <==> cellW + GridStep(cellW) * a < w && cellH + GridStep(cellH) * b < h)
      && (a < |cols| && b < |rows| ==> b * |cols| + a < |GridCells(w, h, cellW, cellH)|)
      && (a < |cols| && b < |rows| ==>
            GridCells(w, h, cellW, cellH)[b * |cols| + a] == (cellW + GridStep(cellW) * a, cellH + GridStep(cellH) * b))
  {
    var cols, rows := Positions(cellW, GridStep(cellW), w), Positions(cellH, GridStep(cellH), h);
    CellsLength(rows, cols);
    PositionsAt(cellW, GridStep(cellW), w, a);
    PositionsAt(cellH, GridStep(cellH), h, b);
    if a < |cols| && b < |rows| {
      CellsAt(rows, cols, a, b);
      assert GridCells(w, h, cellW, cellH) == Cells(rows, cols);
      assert cols[a] == cellW + GridStep(cellW) * a && rows[b] == cellH + GridStep(cellH) * b;
    }
  }

  /** Nothing is drawn when the usable area is at most one shape wide or high. */
  lemma GridEmpty(w: int, h: int, cellW: int, cellH: int)
    requires cellW > 0 && cellH > 0
    ensures GridCells(w, h, cellW, cellH) == [] <==> w <= cellW || h <= cellH
  {
    var cols, rows := Positions(cellW, GridStep(cellW), w), Positions(cellH, GridStep(cellH), h);
    CellsLength(rows, cols);
    PositionsAt(cellW, GridStep(cellW), w, 0);
    PositionsAt(cellH, GridStep(cellH), h, 0);
  }

  /** For the 25 by 25 shapes of the factory: cell `(a, b)` of the row-major
      grid is `(25 + 37 * a, 25 + 37 * b)`, present exactly when both lie
      inside the usable area, and nothing is drawn when that area is at most
      25 wide or high. */
  lemma ShapeGrid(w: int, h: int, a: nat, b: nat)
    ensures var cols, rows := |Positions(25, 37, w)|, |Positions(25, 37, h)|;
      && |GridCells(w, h, 25, 25)| == rows * cols
      && (a < cols && b < rows <==> 25 + 37 * a < w && 25 + 37 * b < h)
      && (a < cols && b < rows ==> b * cols + a < |GridCells(w, h, 25, 25)|)
      && (a < cols && b < rows ==> GridCells(w, h, 25, 25)[b * cols + a] == (25 + 37 * a, 25 + 37 * b))
      && (GridCells(w, h, 25, 25) == [] <==> w <= 25 || h <= 25)
  {
    GridStepOfShape();
    GridCharacterization(w, h, 25, 25, a, b);
    GridEmpty(w, h, 25, 25);
  }

  lemma RowSnoc(y: int, xs: seq<int>, x: int)
    ensures Row(y, xs + [x]) == Row(y, xs) + [(x, y)]
  {
  }

  lemma CellsSnoc(ys: seq<int>, y: int, xs: seq<int>)
    ensures Cells(ys + [y], xs) == Cells(ys, xs) + Row(y, xs)
  {
    assert (ys + [y])[..|ys|] == ys;
  }

  /** The inner drawing loop: columns from `cellW` while below `w`, each
      visited position one cell of row `y`. */
  method DrawRow(y: int, w: int, cellW: int) returns (row: seq<(int, int)>)
    requires cellW > 0
    ensures row == Row(y, Positions(cellW, GridStep(cellW), w))
  {
    var stepX := GridStep(cellW);
    ghost var cols := Positions(cellW, stepX, w);
    ghost var colsDone: seq<int> := [];
    row := [];
    var i := cellW;
    while i < w
      invariant colsDone + Positions(i, stepX, w) == cols
      invariant row == Row(y, colsDone)
      decreases w - i
    {
      RowSnoc(y, colsDone, i);
      row := row + [(i, y)];
      colsDone := colsDone + [i];
      i := i + stepX;
    }
    assert colsDone == cols;
  }

  /** The nested drawing loops of one paint: rows from `cellH` while below
      `h`, and within each row (the inner loop, DrawRow) columns from `cellW`
      while below `w`; each visited position is one drawn cell. */
  method DrawGrid(w: int, h: int, cellW: int, cellH: int) returns (cells: seq<(int, int)>)
    requires cellW > 0 && cellH > 0
    ensures cells == GridCells(w, h, cellW, cellH)
  {
    var stepY := GridStep(cellH);
    ghost var cols := Positions(cellW, GridStep(cellW), w);
    ghost var rows := Positions(cellH, stepY, h);
    ghost var rowsDone: seq<int> := [];
    cells := [];
    var j := cellH;
    while j < h
      invariant rowsDone + Positions(j, stepY, h) == rows
      invariant cells == Cells(rowsDone, cols)
      decreases h - j
    {
      var row := DrawRow(j, w, cellW);
      CellsSnoc(rowsDone, j, cols);
      cells := cells + row;
      rowsDone := rowsDone + [j];
      j := j + stepY;
    }
    assert rowsDone == rows;
  }

  // ---------------------------------------------------------------------
  // The panel

  /** What one paint draws: the factory's shape with its stroke and paint, once
      per cell, the rotations starting from `baseAngle`. */
  datatype Frame = Frame(factory: SF.ShapeFactory, baseAngle: int, cells: seq<(int, int)>)

  class TitlesPanel {
    /** True except while a drawing is in progress. */
    var isDone: bool
    /** The rotation counter, advanced once per paint. */
    var startAngle: int
    /** The shape code handed to the factory on every paint. */
    var shape: int

    ghost predicate Valid()
      reads this
    {
      0 <= startAngle <= 360
    }

    /** A new panel: not drawing, counter at 0. The timer it starts is not modelled. */
    constructor (shapeType: int)
      ensures Valid()
      ensures isDone && startAngle == 0 && shape == shapeType
    {
      isDone := true;
      startAngle := 0;
      shape := shapeType;
    }

    /** The timer callback: a repaint is requested only when no drawing is in progress. */
    method ActionPerformed() returns (repaint: bool)
      ensures repaint <==> isDone
    {
      repaint := isDone;
    }

    /** doDrawing, with the panel size and insets passed in. The factory is
        built before the counter moves, so an unsupported code leaves the
        counter alone and the panel marked as drawing. */
    method DoDrawing(width: int, height: int, left: int, right: int, top: int, bottom: int)
      returns (r: Result<Frame, SF.DecodeError>)
      requires Valid()
      modifies this`isDone, this`startAngle
      ensures Valid()
      ensures SF.Decode(shape).Failure? ==>
        && r == Failure(SF.Decode(shape).error)
        && !isDone
        && startAngle == old(startAngle)
      ensures SF.Decode(shape).Success? ==>
        && var f := SF.Decode(shape).value;
        && f.width > 0 && f.height > 0
        && r == Success(Frame(f, old(startAngle), GridCells(width - left - right, height - top - bottom, f.width, f.height)))
        && isDone
        && startAngle == NextAngle(old(startAngle))
    {
      isDone := false;
      var w := width - left - right;
      var h := height - top - bottom;

      var built := SF.New(shape);
      if built.Failure? {
        return Failure(built.error);
      }
      var f := built.value;
      SF.DimensionsFixed(shape);

      var angle := startAngle;
      startAngle := startAngle + 1;
      if startAngle > 360 {
        startAngle := 0;
      }

      var cells := DrawGrid(w, h, f.width, f.height);
      isDone := true;
      r := Success(Frame(f, angle, cells));
    }
  }
}

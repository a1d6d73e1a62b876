/**
 * The tiled pattern generator of `generate_grid.py`: nine diagonal paths inside
 * a 5x5 unit, mirrored according to the parity of the unit's row and column,
 * translated to the unit's place in an 8-row by 6-column tiling and coloured
 * in a red/blue checkerboard.
 */
module Grid {

  /** Side of one unit, in grid cells. */
  const UnitSize: int := 5

  /** Rows and columns of units in the generated tiling. */
  const Rows: nat := 8
  const Cols: nat := 6

  datatype Coord = Coord(x: int, y: int)

  /** A straight path between two grid points. */
  datatype Path = Path(start: Coord, end: Coord)

  /** One generated thread entry: a colour and the paths drawn in it. */
  datatype Thread = Thread(color: string, paths: seq<Path>)

  /** The nine paths of the untransformed unit: anti-diagonals of the 5x5 square. */
  const BasePaths: seq<Path> := [
    Path(Coord(0, 1), Coord(1, 0)),
    Path(Coord(0, 2), Coord(2, 0)),
    Path(Coord(0, 3), Coord(3, 0)),
    Path(Coord(0, 4), Coord(4, 0)),
    Path(Coord(0, 5), Coord(5, 0)),
    Path(Coord(1, 5), Coord(5, 1)),
    Path(Coord(2, 5), Coord(5, 2)),
    Path(Coord(3, 5), Coord(5, 3)),
    Path(Coord(4, 5), Coord(5, 4))
  ]

  /**
   * `transform_path`: parity `(0, 1)` mirrors x inside the unit, `(1, 0)`
   * mirrors y, and every other pair of parities keeps the path as it is.
   */
  function TransformPath(path: Path, rowParity: int, colParity: int, unitSize: int := UnitSize): Path {
    var x, y := path.start.x, path.start.y;
    var xEnd, yEnd := path.end.x, path.end.y;
    if rowParity == 0 && colParity == 0 then
      Path(Coord(x, y), Coord(xEnd, yEnd))
    else if rowParity == 0 && colParity == 1 then
      Path(Coord(unitSize - x, y), Coord(unitSize - xEnd, yEnd))
    else if rowParity == 1 && colParity == 0 then
      Path(Coord(x, unitSize - y), Coord(xEnd, unitSize - yEnd))
    else
      Path(Coord(x, y), Coord(xEnd, yEnd))
  }

  function Translate(path: Path, dx: int, dy: int): Path {
    Path(Coord(path.start.x + dx, path.start.y + dy), Coord(path.end.x + dx, path.end.y + dy))
  }

  function Abs(n: int): nat {
    if n < 0 then -n else n
  }

  /** The path runs at 45 degrees: it moves as far in x as in y. */
  predicate IsDiagonal(path: Path) {
    Abs(path.end.x - path.start.x) == Abs(path.end.y - path.start.y)
  }

  predicate InRange(c: Coord, left: int, top: int, right: int, bottom: int) {
    left <= c.x <= right && top <= c.y <= bottom
  }

  /** Both ends of the path lie in the rectangle `[left, right] x [top, bottom]`. */
  predicate PathInRange(path: Path, left: int, top: int, right: int, bottom: int) {
    InRange(path.start, left, top, right, bottom) && InRange(path.end, left, top, right, bottom)
  }

  /** The colour of the unit in row `row`, column `col`. */
  function UnitColor(row: int, col: int): string {
    if (row + col) % 2 == 0 then "red" else "blue"
  }

  /** Path `k` of the unit at `(row, col)`: the base path, mirrored for the unit's parities, moved to the unit. */
  function UnitPath(row: int, col: int, k: nat): Path
    requires k < |BasePaths|
  {
    Translate(TransformPath(BasePaths[k], row % 2, col % 2), col * UnitSize, row * UnitSize)
  }

  /** The thread entry generated for the unit at `(row, col)`. */
  function Unit(row: int, col: int): Thread {
    Thread(UnitColor(row, col), seq(|BasePaths|, k requires 0 <= k < |BasePaths| => UnitPath(row, col, k)))
  }

  // ---------------------------------------------------------------------------
  // The generation loops

  /**
   * The module-level loops: rows outer, columns inner, the nine base paths
   * innermost.  Entry `i` of the result is the unit of row `i / 6` and column
   * `i % 6`.
   */
  method GenerateThreads() returns (threads: seq<Thread>)
    ensures |threads| == Rows * Cols
    ensures forall i :: 0 <= i < |threads| ==> threads[i] == Unit(i / Cols, i % Cols)
  {
    threads := [];
    for row := 0 to Rows
      invariant |threads| == row * Cols
      invariant forall i :: 0 <= i < |threads| ==> threads[i] == Unit(i / Cols, i % Cols)
    {
      for col := 0 to Cols
        invariant |threads| == row * Cols + col
        invariant forall i :: 0 <= i < |threads| ==> threads[i] == Unit(i / Cols, i % Cols)
      {
        var xOffset := col * UnitSize;
        var yOffset := row * UnitSize;
        var color := if (row + col) % 2 == 0 then "red" else "blue";
        var rowParity := row % 2;
        var colParity := col % 2;

        var unitPaths: seq<Path> := [];
        for k := 0 to |BasePaths|
          invariant |unitPaths| == k
          invariant forall j :: 0 <= j < k ==> unitPaths[j] == UnitPath(row, col, j)
        {
          var transformed := TransformPath(BasePaths[k], rowParity, colParity);
          unitPaths := unitPaths + [Path(Coord(transformed.start.x + xOffset, transformed.start.y + yOffset),
                                         Coord(transformed.end.x + xOffset, transformed.end.y + yOffset))];
        }

        UnitIndex(row, col);
        UnitFromPaths(row, col, unitPaths);
        threads := threads + [Thread(color, unitPaths)];
      }
    }
  }

  /** Entry `row * Cols + col` of the generated list belongs to the unit at `(row, col)`. */
  lemma UnitIndex(row: nat, col: nat)
    requires col < Cols
    ensures (row * Cols + col) / Cols == row && (row * Cols + col) % Cols == col
  {
  }

  /** The nine paths built for the unit at `(row, col)`, in its colour, make up that unit. */
  lemma UnitFromPaths(row: int, col: int, paths: seq<Path>)
    requires |paths| == |BasePaths|
    requires forall j :: 0 <= j < |paths| ==> paths[j] == UnitPath(row, col, j)
    ensures Thread(UnitColor(row, col), paths) == Unit(row, col)
  {
  }

  // ---------------------------------------------------------------------------
  // Properties of the transformation

  /** Parities `(0, 0)` and `(1, 1)` leave the path unchanged. */
  lemma TransformKeepsSameParity(path: Path, unitSize: int)
    ensures TransformPath(path, 0, 0, unitSize) == path
    ensures TransformPath(path, 1, 1, unitSize) == path
  {
  }

  /**
   * Parity `(0, 1)` reflects both ends across the vertical line `x = unitSize/2`
   * and keeps y; parity `(1, 0)` reflects across `y = unitSize/2` and keeps x.
   */
  lemma TransformMirrors(path: Path, unitSize: int)
    ensures var q := TransformPath(path, 0, 1, unitSize);
      && q.start.x + path.start.x == unitSize && q.end.x + path.end.x == unitSize
      && q.start.y == path.start.y && q.end.y == path.end.y
    ensures var q := TransformPath(path, 1, 0, unitSize);
      && q.start.y + path.start.y == unitSize && q.end.y + path.end.y == unitSize
      && q.start.x == path.start.x && q.end.x == path.end.x
  {
  }

  /** Transforming twice with the same parities gives back the original path. */
  lemma TransformInvolution(path: Path, rowParity: int, colParity: int, unitSize: int)
    ensures TransformPath(TransformPath(path, rowParity, colParity, unitSize), rowParity, colParity, unitSize) == path
  {
  }

  /** The transformation maps the unit square `[0, unitSize]^2` into itself. */
  lemma TransformStaysInUnit(path: Path, rowParity: int, colParity: int, unitSize: int)
    requires PathInRange(path, 0, 0, unitSize, unitSize)
    ensures PathInRange(TransformPath(path, rowParity, colParity, unitSize), 0, 0, unitSize, unitSize)
  {
  }

  /** The transformation keeps a 45-degree path at 45 degrees. */
  lemma TransformKeepsDiagonal(path: Path, rowParity: int, colParity: int, unitSize: int)
    requires IsDiagonal(path)
    ensures IsDiagonal(TransformPath(path, rowParity, colParity, unitSize))
  {
  }

  /** The nine base paths lie in the 5x5 unit and run at 45 degrees. */
  lemma BasePathsShape()
    ensures |BasePaths| == 9
    ensures forall k :: 0 <= k < |BasePaths| ==>
      PathInRange(BasePaths[k], 0, 0, UnitSize, UnitSize) && IsDiagonal(BasePaths[k])
  {
  }

  // ---------------------------------------------------------------------------
  // Properties of the generated units

  /**
   * Each unit has exactly nine paths, all at 45 degrees, and all inside the
   * unit's own square `[5*col, 5*col+5] x [5*row, 5*row+5]`.
   */
  lemma UnitShape(row: int, col: int)
    ensures |Unit(row, col).paths| == 9
    ensures forall k :: 0 <= k < 9 ==>
      && IsDiagonal(Unit(row, col).paths[k])
      && PathInRange(Unit(row, col).paths[k], col * UnitSize, row * UnitSize, col * UnitSize + UnitSize, row * UnitSize + UnitSize)
  {
    BasePathsShape();
    forall k | 0 <= k < 9
      ensures IsDiagonal(Unit(row, col).paths[k])
      ensures PathInRange(Unit(row, col).paths[k], col * UnitSize, row * UnitSize, col * UnitSize + UnitSize, row * UnitSize + UnitSize)
    {
      TransformStaysInUnit(BasePaths[k], row % 2, col % 2, UnitSize);
      TransformKeepsDiagonal(BasePaths[k], row % 2, col % 2, UnitSize);
    }
  }

  /** A unit is red exactly when its row and column add up to an even number, blue otherwise. */
  lemma UnitColorRule(row: int, col: int)
    ensures Unit(row, col).color == "red" <==> (row + col) % 2 == 0
    ensures Unit(row, col).color == "blue" <==> (row + col) % 2 != 0
  {
  }

  /** Horizontally or vertically adjacent units have different colours. */
  lemma CheckerboardNeighbours(row: int, col: int)
    ensures Unit(row, col).color != Unit(row, col + 1).color
    ensures Unit(row, col).color != Unit(row + 1, col).color
  {
  }

  /** Every generated path lies within the `[0, 30] x [0, 40]` extent of the tiling. */
  lemma TilingWithinExtent(i: nat, k: nat)
    requires i < Rows * Cols && k < 9
    ensures PathInRange(Unit(i / Cols, i % Cols).paths[k], 0, 0, Cols * UnitSize, Rows * UnitSize)
  {
    var row, col := i / Cols, i % Cols;
    assert 0 <= row < Rows && 0 <= col < Cols;
    assert 0 <= col * UnitSize && col * UnitSize + UnitSize <= Cols * UnitSize;
    assert 0 <= row * UnitSize && row * UnitSize + UnitSize <= Rows * UnitSize;
    UnitShape(row, col);
  }
}

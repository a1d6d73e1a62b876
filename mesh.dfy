/**
 * The mesh layout planner of `create_mesh.py`: `create_embroidery_mesh` draws a
 * square lattice of grid lines and intersection dots on a white canvas, then one
 * straight line per thread entry between the centres of its start and end cells,
 * and saves the image.  Every drawing call on the canvas is recorded here as a
 * `Command`, in the order `create_embroidery_mesh` issues it; a run that stops on an index
 * error saves nothing and returns only the error.
 */
module Mesh {
  import opened Wrappers

  /** Pixels of white margin around the lattice. */
  const Padding: int := 20

  /** Radius, in pixels, of the dot drawn at each lattice intersection. */
  const PointRadius: int := 1

  /**
   * One entry of the `threads` list, as the renderer reads it: only the keys
   * `color`, `start` and `end` are looked at, each of which may be missing.
   * A coordinate is a JSON list of integers; the renderer reads its first two items.
   */
  datatype Entry = Entry(color: Option<string>, start: Option<seq<int>>, end: Option<seq<int>>)

  /** The top-level JSON object of a threads file: its `threads` key may be missing. */
  datatype Document = Document(threads: Option<seq<Entry>>)

  /** A threads file path that was given: either nothing exists there, or it holds a document. */
  datatype ThreadsFile = Missing | Json(doc: Document)

  /** A point on the canvas; thread ends fall on half pixels, so coordinates are exact reals. */
  datatype Point = Point(x: real, y: real)

  /** The drawing calls the planner makes, in place of the imaging library. */
  datatype Command =
    | NewImage(width: int, height: int, background: string)
    | Line(from: Point, to: Point, fill: string, width: int)
    | Ellipse(left: int, top: int, right: int, bottom: int, fill: string)
    | Save(file: string)

  /** `thread[1]` of a coordinate list with fewer than two items: the index of the offending entry. */
  datatype MeshError = IndexError(thread: nat)

  // ---------------------------------------------------------------------------
  // Loading thread entries

  /** `load_threads`: no file means no threads, and so does a document without a `threads` key. */
  function LoadThreads(file: ThreadsFile): seq<Entry> {
    match file
    case Missing => []
    case Json(doc) => doc.threads.GetOr([])
  }

  /** The thread list `create_embroidery_mesh` draws; `None` when no threads file was named. */
  function ThreadsOf(threadsFile: Option<ThreadsFile>): seq<Entry> {
    match threadsFile
    case None => []
    case Some(file) => LoadThreads(file)
  }

  /** The colour of a thread entry, `"black"` when the key is missing. */
  function ColorOf(e: Entry): string {
    e.color.GetOr("black")
  }

  /** The start cell of a thread entry, `[0, 0]` when the key is missing. */
  function StartOf(e: Entry): seq<int> {
    e.start.GetOr([0, 0])
  }

  /** The end cell of a thread entry, `[0, 0]` when the key is missing. */
  function EndOf(e: Entry): seq<int> {
    e.end.GetOr([0, 0])
  }

  /** The entry can be drawn without an index error: both coordinate lists have an x and a y. */
  predicate WellFormed(e: Entry) {
    |StartOf(e)| >= 2 && |EndOf(e)| >= 2
  }

  // ---------------------------------------------------------------------------
  // Pixel arithmetic

  /** Side of the lattice in pixels: `size` cells and one extra pixel for the closing line. */
  function ImageSize(size: nat, cellSize: nat): nat {
    size * cellSize + 1
  }

  /** Side of the whole canvas: the lattice and a margin on both sides. */
  function CanvasSide(size: nat, cellSize: nat): nat {
    ImageSize(size, cellSize) + 2 * Padding
  }

  /** Pixel position of the cell boundary with index `i` (on either axis). */
  function Boundary(i: int, cellSize: nat): int {
    Padding + i * cellSize
  }

  /** Pixel position of the centre of cell `k` (on either axis): half a cell past its boundary. */
  function Centre(k: int, cellSize: nat): real {
    Boundary(k, cellSize) as real + cellSize as real / 2.0
  }

  /** Last pixel the lattice covers, on either axis. */
  function LatticeEnd(size: nat, cellSize: nat): int {
    Padding + ImageSize(size, cellSize) - 1
  }

  // ---------------------------------------------------------------------------
  // The commands the planner issues

  function VerticalLine(i: int, size: nat, cellSize: nat, lineWidth: int): Command {
    var x := Boundary(i, cellSize) as real;
    Line(Point(x, Padding as real), Point(x, LatticeEnd(size, cellSize) as real), "black", lineWidth)
  }

  function HorizontalLine(i: int, size: nat, cellSize: nat, lineWidth: int): Command {
    var y := Boundary(i, cellSize) as real;
    Line(Point(Padding as real, y), Point(LatticeEnd(size, cellSize) as real, y), "black", lineWidth)
  }

  /** The dot at the intersection of vertical boundary `i` and horizontal boundary `j`. */
  function Dot(i: int, j: int, cellSize: nat): Command {
    var x, y := Boundary(i, cellSize), Boundary(j, cellSize);
    Ellipse(x - PointRadius, y - PointRadius, x + PointRadius, y + PointRadius, "black")
  }

  /** The line drawn for a thread entry, from the centre of its start cell to the centre of its end cell. */
  function ThreadLine(e: Entry, cellSize: nat, threadWidth: int): Command
    requires WellFormed(e)
  {
    var s, t := StartOf(e), EndOf(e);
    Line(Point(Centre(s[0], cellSize), Centre(s[1], cellSize)),
         Point(Centre(t[0], cellSize), Centre(t[1], cellSize)),
         ColorOf(e), threadWidth)
  }

  // ---------------------------------------------------------------------------
  // The plan, stated loop by loop

  /** The grid lines of the first `n` boundaries: for each, the vertical line then the horizontal one. */
  function GridLines(n: nat, size: nat, cellSize: nat, lineWidth: int): seq<Command> {
    if n == 0 then []
    else GridLines(n - 1, size, cellSize, lineWidth)
         + [VerticalLine(n - 1, size, cellSize, lineWidth), HorizontalLine(n - 1, size, cellSize, lineWidth)]
  }

  /** The dots on vertical boundary `i` at horizontal boundaries `0 .. n-1`. */
  function DotColumn(i: int, n: nat, cellSize: nat): seq<Command> {
    if n == 0 then [] else DotColumn(i, n - 1, cellSize) + [Dot(i, n - 1, cellSize)]
  }

  /** The dots on vertical boundaries `0 .. m-1`, each with `n` dots. */
  function Dots(m: nat, n: nat, cellSize: nat): seq<Command> {
    if m == 0 then [] else Dots(m - 1, n, cellSize) + DotColumn(m - 1, n, cellSize)
  }

  /** One line per thread entry, in list order. */
  function ThreadLines(ts: seq<Entry>, cellSize: nat, threadWidth: int): seq<Command>
    requires forall k :: 0 <= k < |ts| ==> WellFormed(ts[k])
  {
    if ts == [] then []
    else ThreadLines(ts[..|ts| - 1], cellSize, threadWidth) + [ThreadLine(ts[|ts| - 1], cellSize, threadWidth)]
  }

  /** Drawing one more entry appends its line. */
  lemma ThreadLinesSnoc(ts: seq<Entry>, k: nat, cellSize: nat, threadWidth: int)
    requires k < |ts| && forall j :: 0 <= j <= k ==> WellFormed(ts[j])
    ensures ThreadLines(ts[..k + 1], cellSize, threadWidth)
            == ThreadLines(ts[..k], cellSize, threadWidth) + [ThreadLine(ts[k], cellSize, threadWidth)]
  {
    assert ts[..k + 1][..k] == ts[..k];
  }

  /** Appending one element after a concatenation. */
  lemma SnocAssoc<T>(a: seq<T>, b: seq<T>, x: T)
    ensures a + b + [x] == a + (b + [x])
  {
  }

  /** The blank canvas, then the grid lines, then the intersection dots. */
  function Lattice(size: nat, cellSize: nat, lineWidth: int): seq<Command> {
    var side := CanvasSide(size, cellSize);
    [NewImage(side, side, "white")]
    + GridLines(size + 1, size, cellSize, lineWidth)
    + Dots(size + 1, size + 1, cellSize)
  }

  /** Index of the first entry that cannot be drawn. */
  function FirstMalformed(ts: seq<Entry>): (k: nat)
    requires exists j :: 0 <= j < |ts| && !WellFormed(ts[j])
    ensures k < |ts| && !WellFormed(ts[k])
    ensures forall j :: 0 <= j < k ==> WellFormed(ts[j])
  {
    if !WellFormed(ts[0]) then 0
    else
      assert exists j :: 0 <= j < |ts[1..]| && !WellFormed(ts[1..][j]) by {
        var j :| 0 <= j < |ts| && !WellFormed(ts[j]);
        assert ts[1..][j - 1] == ts[j];
      }
      1 + FirstMalformed(ts[1..])
  }

  /** An entry that cannot be drawn, after entries that all can, is the first malformed one. */
  lemma FirstMalformedAt(ts: seq<Entry>, k: nat)
    requires k < |ts| && !WellFormed(ts[k])
    requires forall j :: 0 <= j < k ==> WellFormed(ts[j])
    ensures exists j :: 0 <= j < |ts| && !WellFormed(ts[j])
    ensures FirstMalformed(ts) == k
  {
  }

  /** Everything `create_embroidery_mesh` draws and saves, or the error it raises. */
  function Plan(size: nat, cellSize: nat, lineWidth: int, outputFile: string,
                threads: seq<Entry>, threadWidth: int): Result<seq<Command>, MeshError>
  {
    if forall k :: 0 <= k < |threads| ==> WellFormed(threads[k]) then
      Ok(Lattice(size, cellSize, lineWidth) + ThreadLines(threads, cellSize, threadWidth) + [Save(outputFile)])
    else
      Err(IndexError(FirstMalformed(threads)))
  }

  // ---------------------------------------------------------------------------
  // The planner

  /**
   * `create_embroidery_mesh`: issues the drawing calls one loop at a time.
   * An entry whose `start` or `end` list is too short stops the run before the
   * image is saved.
   */
  method CreateEmbroideryMesh(size: nat := 40, cellSize: nat := 20, lineWidth: int := 1,
                              outputFile: string := "embroidery_mesh.png",
                              threadsFile: Option<ThreadsFile> := None, threadWidth: int := 3)
    returns (r: Result<seq<Command>, MeshError>)
    ensures r == Plan(size, cellSize, lineWidth, outputFile, ThreadsOf(threadsFile), threadWidth)
  {
    var imageSize := size * cellSize + 1;
    var canvas := [NewImage(imageSize + 2 * Padding, imageSize + 2 * Padding, "white")];
    canvas := DrawGridLines(canvas, size, cellSize, lineWidth);
    canvas := DrawDots(canvas, size, cellSize);
    assert canvas == Lattice(size, cellSize, lineWidth);

    var threads: seq<Entry> := [];
    if threadsFile.Some? {
      threads := LoadThreads(threadsFile.value);
    }
    r := DrawThreads(canvas, threads, cellSize, threadWidth);
    if r.Ok? {
      r := Ok(r.value + [Save(outputFile)]);
    }
  }

  /** The first loop: for each boundary, its vertical grid line and then its horizontal one. */
  method DrawGridLines(canvas: seq<Command>, size: nat, cellSize: nat, lineWidth: int)
    returns (out: seq<Command>)
    ensures out == canvas + GridLines(size + 1, size, cellSize, lineWidth)
  {
    var imageSize := size * cellSize + 1;
    out := canvas;
    for i := 0 to size + 1
      invariant out == canvas + GridLines(i, size, cellSize, lineWidth)
    {
      var x := Padding + i * cellSize;
      var y := Padding + i * cellSize;
      out := out + [Line(Point(x as real, Padding as real), Point(x as real, (Padding + imageSize - 1) as real),
                         "black", lineWidth)];
      out := out + [Line(Point(Padding as real, y as real), Point((Padding + imageSize - 1) as real, y as real),
                         "black", lineWidth)];
    }
  }

  /** The nested loops: the dots of each vertical boundary, top to bottom. */
  method DrawDots(canvas: seq<Command>, size: nat, cellSize: nat) returns (out: seq<Command>)
    ensures out == canvas + Dots(size + 1, size + 1, cellSize)
  {
    out := canvas;
    for i := 0 to size + 1
      invariant out == canvas + Dots(i, size + 1, cellSize)
    {
      for j := 0 to size + 1
        invariant out == canvas + Dots(i, size + 1, cellSize) + DotColumn(i, j, cellSize)
      {
        var x := Padding + i * cellSize;
        var y := Padding + j * cellSize;
        out := out + [Ellipse(x - PointRadius, y - PointRadius, x + PointRadius, y + PointRadius, "black")];
      }
    }
  }

  /**
   * The loop over the thread entries: one line per entry between the centres
   * of its start and end cells, or the index error of the first entry whose
   * `start` or `end` list is too short.
   */
  method DrawThreads(canvas: seq<Command>, threads: seq<Entry>, cellSize: nat, threadWidth: int)
    returns (r: Result<seq<Command>, MeshError>)
    ensures (forall k :: 0 <= k < |threads| ==> WellFormed(threads[k])) ==>
      r == Ok(canvas + ThreadLines(threads, cellSize, threadWidth))
    ensures (exists k :: 0 <= k < |threads| && !WellFormed(threads[k])) ==>
      r == Err(IndexError(FirstMalformed(threads)))
  {
    var out := canvas;
    for k := 0 to |threads|
      invariant forall j :: 0 <= j < k ==> WellFormed(threads[j])
      invariant out == canvas + ThreadLines(threads[..k], cellSize, threadWidth)
    {
      var thread := threads[k];
      var color := thread.color.GetOr("black");
      var start := thread.start.GetOr([0, 0]);
      var end := thread.end.GetOr([0, 0]);
      if |start| < 2 || |end| < 2 {
        FirstMalformedAt(threads, k);
        return Err(IndexError(k));
      }

      var startX := (Padding + start[0] * cellSize) as real + cellSize as real / 2.0;
      var startY := (Padding + start[1] * cellSize) as real + cellSize as real / 2.0;
      var endX := (Padding + end[0] * cellSize) as real + cellSize as real / 2.0;
      var endY := (Padding + end[1] * cellSize) as real + cellSize as real / 2.0;

      out := out + [Line(Point(startX, startY), Point(endX, endY), color, threadWidth)];
      ThreadLinesSnoc(threads, k, cellSize, threadWidth);
      SnocAssoc(canvas, ThreadLines(threads[..k], cellSize, threadWidth), ThreadLine(thread, cellSize, threadWidth));
    }

    assert threads[..|threads|] == threads;
    r := Ok(out);
  }

  // ---------------------------------------------------------------------------
  // Where each command lands in the plan

  /** Boundary `i` contributes its vertical line at position `2i` and its horizontal line right after. */
  lemma {:induction false} GridLinesAt(n: nat, size: nat, cellSize: nat, lineWidth: int)
    ensures |GridLines(n, size, cellSize, lineWidth)| == 2 * n
    ensures forall i :: 0 <= i < n ==>
      GridLines(n, size, cellSize, lineWidth)[2 * i] == VerticalLine(i, size, cellSize, lineWidth) &&
      GridLines(n, size, cellSize, lineWidth)[2 * i + 1] == HorizontalLine(i, size, cellSize, lineWidth)
  {
    if n > 0 {
      GridLinesAt(n - 1, size, cellSize, lineWidth);
    }
  }

  /** The dots of one vertical boundary come in order of the horizontal boundary. */
  lemma {:induction false} DotColumnAt(i: int, n: nat, cellSize: nat)
    ensures |DotColumn(i, n, cellSize)| == n
    ensures forall j :: 0 <= j < n ==> DotColumn(i, n, cellSize)[j] == Dot(i, j, cellSize)
  {
    if n > 0 {
      DotColumnAt(i, n - 1, cellSize);
    }
  }

  /** Each column of dots holds `n` dots, so `m` columns hold `m*n`. */
  lemma {:induction false} DotsLength(m: nat, n: nat, cellSize: nat)
    ensures |Dots(m, n, cellSize)| == m * n
  {
    if m > 0 {
      DotsLength(m - 1, n, cellSize);
      DotColumnAt(m - 1, n, cellSize);
      assert m * n == (m - 1) * n + n;
    }
  }

  /** Position `|a| + k` of `a + b` holds the `k`-th element of `b`. */
  lemma IndexAfter<T>(a: seq<T>, b: seq<T>, k: nat)
    requires k < |b|
    ensures |a| + k < |a + b| && (a + b)[|a| + k] == b[k]
  {
  }

  /** Position `k` of `a + b` inside `a` holds the `k`-th element of `a`. */
  lemma IndexBefore<T>(a: seq<T>, b: seq<T>, k: nat)
    requires k < |a|
    ensures (a + b)[k] == a[k]
  {
  }

  /** The dot for `(i, j)` comes right after the dots of columns `0 .. i-1`, at offset `j`. */
  lemma {:induction false} DotsAt(m: nat, n: nat, cellSize: nat, i: nat, j: nat)
    requires i < m && j < n
    ensures |Dots(i, n, cellSize)| + j < |Dots(m, n, cellSize)|
    ensures Dots(m, n, cellSize)[|Dots(i, n, cellSize)| + j] == Dot(i, j, cellSize)
  {
    DotColumnAt(m - 1, n, cellSize);
    var prev := Dots(m - 1, n, cellSize);
    var column := DotColumn(m - 1, n, cellSize);
    if i < m - 1 {
      DotsAt(m - 1, n, cellSize, i, j);
      IndexBefore(prev, column, |Dots(i, n, cellSize)| + j);
    } else {
      IndexAfter(prev, column, j);
    }
  }

  /** One line per entry, entry `k` at position `k`. */
  lemma {:induction false} ThreadLinesAt(ts: seq<Entry>, cellSize: nat, threadWidth: int)
    requires forall k :: 0 <= k < |ts| ==> WellFormed(ts[k])
    ensures |ThreadLines(ts, cellSize, threadWidth)| == |ts|
    ensures forall k :: 0 <= k < |ts| ==> ThreadLines(ts, cellSize, threadWidth)[k] == ThreadLine(ts[k], cellSize, threadWidth)
  {
    if ts != [] {
      var init := ts[..|ts| - 1];
      ThreadLinesAt(init, cellSize, threadWidth);
      assert forall k :: 0 <= k < |init| ==> init[k] == ts[k];
    }
  }

  /** Position in the plan of the dot for boundary pair `(i, j)`: after the canvas, the grid lines and `i` full columns of dots. */
  function DotPosition(size: nat, i: nat, j: nat): nat {
    1 + 2 * (size + 1) + i * (size + 1) + j
  }

  /** The dot for `(i, j)` sits at `DotPosition(size, i, j)` of the lattice. */
  lemma LatticeDotAt(size: nat, cellSize: nat, lineWidth: int, i: nat, j: nat)
    requires i <= size && j <= size
    ensures DotPosition(size, i, j) < |Lattice(size, cellSize, lineWidth)|
    ensures Lattice(size, cellSize, lineWidth)[DotPosition(size, i, j)] == Dot(i, j, cellSize)
  {
    var n := size + 1;
    var front := [NewImage(CanvasSide(size, cellSize), CanvasSide(size, cellSize), "white")]
                 + GridLines(n, size, cellSize, lineWidth);
    GridLinesAt(n, size, cellSize, lineWidth);
    DotsAt(n, n, cellSize, i, j);
    DotsLength(i, n, cellSize);
    IndexAfter(front, Dots(n, n, cellSize), |Dots(i, n, cellSize)| + j);
  }

  /**
   * The lattice: a square canvas of side `size*cellSize + 1 + 2*Padding`, then
   * for each boundary `i` in `0 .. size` its vertical and its horizontal line,
   * then `(size+1)^2` intersection dots, one column of dots after another.
   */
  lemma LatticeLayout(size: nat, cellSize: nat, lineWidth: int)
    ensures |Lattice(size, cellSize, lineWidth)| == 1 + 2 * (size + 1) + (size + 1) * (size + 1)
    ensures Lattice(size, cellSize, lineWidth)[0]
            == NewImage(size * cellSize + 1 + 2 * Padding, size * cellSize + 1 + 2 * Padding, "white")
    ensures forall i :: 0 <= i <= size ==>
      Lattice(size, cellSize, lineWidth)[1 + 2 * i] == VerticalLine(i, size, cellSize, lineWidth) &&
      Lattice(size, cellSize, lineWidth)[2 + 2 * i] == HorizontalLine(i, size, cellSize, lineWidth)
    ensures forall i: nat, j: nat :: i <= size && j <= size ==>
      && DotPosition(size, i, j) < |Lattice(size, cellSize, lineWidth)|
      && Lattice(size, cellSize, lineWidth)[DotPosition(size, i, j)] == Dot(i, j, cellSize)
  {
    var n := size + 1;
    var head := [NewImage(CanvasSide(size, cellSize), CanvasSide(size, cellSize), "white")];
    var grid := GridLines(n, size, cellSize, lineWidth);
    var dots := Dots(n, n, cellSize);
    GridLinesAt(n, size, cellSize, lineWidth);
    DotsLength(n, n, cellSize);
    var p := head + grid + dots;
    assert Lattice(size, cellSize, lineWidth) == p;
    forall i | 0 <= i < n
      ensures p[1 + 2 * i] == VerticalLine(i, size, cellSize, lineWidth)
      ensures p[2 + 2 * i] == HorizontalLine(i, size, cellSize, lineWidth)
    {
      IndexAfter(head, grid, 2 * i);
      IndexAfter(head, grid, 2 * i + 1);
      IndexBefore(head + grid, dots, 1 + 2 * i);
      IndexBefore(head + grid, dots, 2 + 2 * i);
    }
    forall i: nat, j: nat | i < n && j < n
      ensures DotPosition(size, i, j) < |p| && p[DotPosition(size, i, j)] == Dot(i, j, cellSize)
    {
      LatticeDotAt(size, cellSize, lineWidth, i, j);
    }
  }

  /**
   * A run that draws every thread: the lattice, then one line per thread entry
   * in list order, then the save.
   */
  lemma PlanLayout(size: nat, cellSize: nat, lineWidth: int, outputFile: string,
                   ts: seq<Entry>, threadWidth: int)
    requires forall k :: 0 <= k < |ts| ==> WellFormed(ts[k])
    ensures Plan(size, cellSize, lineWidth, outputFile, ts, threadWidth).Ok?
    ensures var p := Plan(size, cellSize, lineWidth, outputFile, ts, threadWidth).value;
      var lattice := Lattice(size, cellSize, lineWidth);
      && |p| == |lattice| + |ts| + 1
      && p[..|lattice|] == lattice
      && (forall k :: 0 <= k < |ts| ==> p[|lattice| + k] == ThreadLine(ts[k], cellSize, threadWidth))
      && p[|p| - 1] == Save(outputFile)
  {
    var lattice := Lattice(size, cellSize, lineWidth);
    var lines := ThreadLines(ts, cellSize, threadWidth);
    ThreadLinesAt(ts, cellSize, threadWidth);
    var p := lattice + lines + [Save(outputFile)];
    assert Plan(size, cellSize, lineWidth, outputFile, ts, threadWidth) == Ok(p);
    assert p[..|lattice|] == lattice;
    forall k | 0 <= k < |ts|
      ensures p[|lattice| + k] == ThreadLine(ts[k], cellSize, threadWidth)
    {
      IndexAfter(lattice, lines, k);
      IndexBefore(lattice + lines, [Save(outputFile)], |lattice| + k);
    }
  }

  // ---------------------------------------------------------------------------
  // Thread entries: defaults and the only failure

  /**
   * Missing keys are filled in: colour `"black"`, start and end `[0, 0]`.  An
   * entry can be drawn exactly when each coordinate list it does have holds at
   * least two items; an entry with no coordinates at all is always drawable.
   */
  lemma EntryDefaults(e: Entry, cellSize: nat, threadWidth: int)
    ensures WellFormed(e) <==>
      (e.start.None? || |e.start.value| >= 2) && (e.end.None? || |e.end.value| >= 2)
    ensures WellFormed(e) ==>
      var l := ThreadLine(e, cellSize, threadWidth);
      && l.fill == (if e.color.Some? then e.color.value else "black")
      && l.width == threadWidth
      && (e.start.None? ==> l.from == Point(Centre(0, cellSize), Centre(0, cellSize)))
      && (e.end.None? ==> l.to == Point(Centre(0, cellSize), Centre(0, cellSize)))
      && (e.start.Some? ==> l.from == Point(Centre(e.start.value[0], cellSize), Centre(e.start.value[1], cellSize)))
      && (e.end.Some? ==> l.to == Point(Centre(e.end.value[0], cellSize), Centre(e.end.value[1], cellSize)))
  {
  }

  /**
   * With the drawing calls taken to succeed, a run fails exactly when some
   * entry has a `start` or `end` list with fewer than two items, and it reports
   * the first such entry.
   */
  lemma PlanFailsOnlyOnShortLists(size: nat, cellSize: nat, lineWidth: int, outputFile: string,
                                  ts: seq<Entry>, threadWidth: int)
    ensures var r := Plan(size, cellSize, lineWidth, outputFile, ts, threadWidth);
      r.Err? <==> exists k :: 0 <= k < |ts| && !WellFormed(ts[k])
    ensures var r := Plan(size, cellSize, lineWidth, outputFile, ts, threadWidth);
      r.Err? ==>
        && r.error.thread < |ts|
        && ((ts[r.error.thread].start.Some? && |ts[r.error.thread].start.value| < 2) ||
            (ts[r.error.thread].end.Some? && |ts[r.error.thread].end.value| < 2))
        && forall k :: 0 <= k < r.error.thread ==> WellFormed(ts[k])
  {
  }

  /**
   * Without a threads file, with a path where no file exists, or with a
   * document lacking the `threads` key, only the lattice is drawn before the save.
   */
  lemma NoThreadsOnlyLattice(size: nat, cellSize: nat, lineWidth: int, outputFile: string,
                             threadsFile: Option<ThreadsFile>, threadWidth: int)
    requires threadsFile.None? || threadsFile.value.Missing? || threadsFile.value.doc.threads.None?
    ensures Plan(size, cellSize, lineWidth, outputFile, ThreadsOf(threadsFile), threadWidth)
            == Ok(Lattice(size, cellSize, lineWidth) + [Save(outputFile)])
    ensures |Lattice(size, cellSize, lineWidth)| == 1 + 2 * (size + 1) + (size + 1) * (size + 1)
  {
    var lattice := Lattice(size, cellSize, lineWidth);
    assert ThreadsOf(threadsFile) == [];
    assert ThreadLines([], cellSize, threadWidth) == [];
    assert lattice + [] + [Save(outputFile)] == lattice + [Save(outputFile)];
    LatticeLayout(size, cellSize, lineWidth);
  }

  // ---------------------------------------------------------------------------
  // Pixel geometry

  lemma MulMonotone(a: int, b: int, c: nat)
    requires a <= b
    ensures a * c <= b * c
  {
  }

  /**
   * Every grid line and every dot lies inside the canvas.  The last boundary
   * falls exactly on the last pixel of the lattice, and the margin past it is
   * `Padding` pixels wide, as wide as the margin before boundary 0.
   */
  lemma LatticeInsideCanvas(size: nat, cellSize: nat, i: int)
    requires 0 <= i <= size
    ensures Padding <= Boundary(i, cellSize) <= LatticeEnd(size, cellSize)
    ensures Boundary(size, cellSize) == LatticeEnd(size, cellSize)
    ensures CanvasSide(size, cellSize) - 1 - LatticeEnd(size, cellSize) == Padding
    ensures 0 <= Boundary(i, cellSize) - PointRadius
    ensures Boundary(i, cellSize) + PointRadius <= CanvasSide(size, cellSize) - 1
  {
    MulMonotone(i, size, cellSize);
    MulMonotone(0, i, cellSize);
  }

  /** The centre of cell `k` lies strictly between boundaries `k` and `k+1`. */
  lemma CentreInsideCell(k: int, cellSize: nat)
    requires cellSize >= 1
    ensures Boundary(k, cellSize) as real < Centre(k, cellSize) < Boundary(k + 1, cellSize) as real
  {
    assert (k + 1) * cellSize == k * cellSize + cellSize;
  }

  /** Cell centres are strictly increasing in the cell index. */
  lemma CentreIncreasing(k1: int, k2: int, cellSize: nat)
    requires cellSize >= 1 && k1 < k2
    ensures Centre(k1, cellSize) < Centre(k2, cellSize)
  {
    MulMonotone(k1 + 1, k2, cellSize);
    CentreInsideCell(k1, cellSize);
    CentreInsideCell(k2, cellSize);
  }

  /** The centre of a cell of the grid lies strictly inside the lattice. */
  lemma CentreInsideLattice(k: int, size: nat, cellSize: nat)
    requires cellSize >= 1 && 0 <= k < size
    ensures (Padding as real) < Centre(k, cellSize) < LatticeEnd(size, cellSize) as real
  {
    CentreInsideCell(k, cellSize);
    LatticeInsideCanvas(size, cellSize, k);
    LatticeInsideCanvas(size, cellSize, k + 1);
  }
}

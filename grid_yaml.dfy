/**
 * The YAML text that `generate_grid.py` assembles from the generated thread
 * entries: a `threads:` header, then for each entry a comment naming its unit,
 * its colour, an optional comment naming the translation, and two lines per path.
 */
module GridYaml {
  import opened Wrappers
  import opened Decimal
  import opened Grid

  /**
   * Python's `str` on the integers interpolated into the text.  Referring to
   * the decimal writer through this value keeps its definition out of proofs
   * that never look inside the digits.
   */
  const Str: int -> string := IntToString

  // ---------------------------------------------------------------------------
  // The per-unit header comment

  /** How a 1-based column is described in the header comment. */
  function ColDesc(col: int): string {
    if col == 1 then "left"
    else if col == 3 || col == 4 then "middle"
    else if col == 6 then "right"
    else "col-" + Str(col)
  }

  /** Names of the middle rows, 1-based. */
  const RowNames: map<int, string> :=
    map[2 := "second", 3 := "third", 4 := "fourth", 5 := "fifth", 6 := "sixth", 7 := "seventh"]

  /** `row_names.get(row, f'{row}th')`. */
  function RowDesc(row: int): string {
    if row in RowNames then RowNames[row] else Str(row) + "th"
  }

  /** `Unit c,r`: the part of the header comment that names the unit, 1-based. */
  function UnitName(row: int, col: int): string {
    "  # Unit " + Str(col) + "," + Str(row)
  }

  /** Where the unit sits: the top row, the bottom row, or a named middle row. */
  function Placement(row: int, col: int): string {
    if row == 1 then " (top-" + ColDesc(col) + ")"
    else if row == 8 then " (bottom-" + ColDesc(col) + ")"
    else " (" + RowDesc(row) + " row, " + ColDesc(col) + ")"
  }

  /** The comment line opening the block of the unit in 1-based row `row`, column `col`. */
  function UnitComment(row: int, col: int): string {
    UnitName(row, col) + Placement(row, col) + "\n"
  }

  /**
   * The wording used for the units of the tiling: columns 1 to 6 read `left`,
   * `col-2`, `middle`, `middle`, `col-5`, `right`, and every middle row has a
   * name, so the `{row}th` fallback is never written.
   */
  lemma HeaderWording(row: int, col: int)
    requires 1 <= row <= Rows && 1 <= col <= Cols
    ensures ColDesc(col) == ["left", "col-2", "middle", "middle", "col-5", "right"][col - 1]
    ensures 2 <= row <= 7 ==> row in RowNames && RowDesc(row) == RowNames[row]
  {
    if col == 2 || col == 5 {
      assert Str(col) == IntToString(col) == [DigitChar(col)];
    }
  }

  // ---------------------------------------------------------------------------
  // The translation comment

  /** Horizontal offset of the unit that entry `i` was generated for. */
  function XOffset(i: nat): int {
    (i % 6) * 5
  }

  /** Vertical offset of the unit that entry `i` was generated for. */
  function YOffset(i: nat): int {
    (i / 6) * 5
  }

  /** Python's `sep.join(parts)`. */
  function Join(parts: seq<string>, sep: string): string {
    if |parts| == 0 then ""
    else if |parts| == 1 then parts[0]
    else parts[0] + sep + Join(parts[1..], sep)
  }

  /** The pieces naming each positive offset, x first. */
  function TranslationParts(xOffset: int, yOffset: int): seq<string> {
    (if xOffset > 0 then ["+" + Str(xOffset) + " in x"] else [])
    + (if yOffset > 0 then ["+" + Str(yOffset) + " in y"] else [])
  }

  /** The comment line that names a translation described by `parts`. */
  function ThreadsNote(parts: string): string {
    "      # Threads" + (" (translated " + parts + ")") + "\n"
  }

  /** The comment line naming the translation, or nothing for an untranslated unit. */
  function TranslationComment(xOffset: int, yOffset: int): string {
    if xOffset > 0 || yOffset > 0 then ThreadsNote(Join(TranslationParts(xOffset, yOffset), " and ")) else ""
  }

  // ---------------------------------------------------------------------------
  // Path lines and whole blocks

  const StartOpen: string := "      - start: ["
  const EndOpen: string := "        end: ["

  /** The line written for one end of a path, opened by `open`. */
  function CoordLine(open: string, c: Coord): string {
    open + Str(c.x) + ", " + Str(c.y) + "]\n"
  }

  /** The two lines written for one path: its start, then its end. */
  function PathLine(path: Path): string {
    CoordLine(StartOpen, path.start) + CoordLine(EndOpen, path.end)
  }

  /** The lines of the paths, in path order. */
  function PathLines(paths: seq<Path>): string {
    if paths == [] then "" else PathLines(paths[..|paths| - 1]) + PathLine(paths[|paths| - 1])
  }

  /** The line giving an entry's colour. */
  function ColorLine(color: string): string {
    "  - color: " + color + "\n"
  }

  const PathsKey: string := "    paths:\n"

  /** Everything written for entry `i` before its path lines. */
  function BlockHeader(i: nat, thread: Thread): string {
    UnitComment(i / 6 + 1, i % 6 + 1) + ColorLine(thread.color) + PathsKey + TranslationComment(XOffset(i), YOffset(i))
  }

  /** The text written for entry `i` of the thread list. */
  function Block(i: nat, thread: Thread): string {
    BlockHeader(i, thread) + PathLines(thread.paths)
  }

  /** The blocks of all entries, in list order. */
  function Blocks(threads: seq<Thread>): string {
    if threads == [] then ""
    else Blocks(threads[..|threads| - 1]) + Block(|threads| - 1, threads[|threads| - 1])
  }

  /** The whole YAML document. */
  function Yaml(threads: seq<Thread>): string {
    "threads:\n" + Blocks(threads)
  }

  // ---------------------------------------------------------------------------
  // The serialisation loop

  lemma ConcatAssoc(a: string, b: string, c: string)
    ensures a + (b + c) == (a + b) + c
  {
  }

  /**
   * The comment line naming a unit's translation, built as generate_grid.py builds
   * it: a list of the positive offsets joined by `and`; empty when no offset
   * is positive.
   */
  method TranslationNote(xOffset: int, yOffset: int) returns (note: string)
    ensures note == TranslationComment(xOffset, yOffset)
  {
    note := "";
    if xOffset > 0 || yOffset > 0 {
      var transParts: seq<string> := [];
      if xOffset > 0 {
        transParts := transParts + ["+" + Str(xOffset) + " in x"];
      }
      if yOffset > 0 {
        transParts := transParts + ["+" + Str(yOffset) + " in y"];
      }
      assert transParts == TranslationParts(xOffset, yOffset);
      var transComment := " (translated " + Join(transParts, " and ") + ")";
      note := "      # Threads" + transComment + "\n";
    }
  }

  /**
   * The first half of one pass of the serialisation loop: appends to `yaml`
   * the header comment, colour, `paths:` key and translation comment of entry `i`.
   */
  method AppendHeader(yaml: string, i: nat, thread: Thread) returns (out: string)
    ensures out == yaml + BlockHeader(i, thread)
  {
    var row := i / 6 + 1;
    var col := i % 6 + 1;
    var actualRow := i / 6;
    var actualCol := i % 6;

    out := yaml + UnitComment(row, col);
    out := out + ColorLine(thread.color);
    out := out + PathsKey;

    var xOffset := actualCol * 5;
    var yOffset := actualRow * 5;
    var note := TranslationNote(xOffset, yOffset);
    out := out + note;

    AppendFour(yaml, UnitComment(row, col), ColorLine(thread.color), PathsKey, note);
  }

  lemma AppendFour(h: string, a: string, b: string, c: string, d: string)
    ensures h + a + b + c + d == h + (a + b + c + d)
  {
    ConcatAssoc(h, a + b + c, d);
    ConcatAssoc(h, a + b, c);
    ConcatAssoc(h, a, b);
  }

  /** The second half of one pass: appends the two lines of each path, one `+=` at a time. */
  method AppendPathLines(yaml: string, paths: seq<Path>) returns (out: string)
    ensures out == yaml + PathLines(paths)
  {
    out := yaml;
    assert paths[..0] == [];
    for k := 0 to |paths|
      invariant out == yaml + PathLines(paths[..k])
    {
      var path := paths[k];
      ghost var before := out;
      out := out + CoordLine(StartOpen, path.start);
      out := out + CoordLine(EndOpen, path.end);
      PathLinesSnoc(paths, k);
      AppendTwo(yaml, PathLines(paths[..k]), CoordLine(StartOpen, path.start), CoordLine(EndOpen, path.end), before, out);
    }
    assert paths[..|paths|] == paths;
  }

  /** The lines of the first `k + 1` paths: the lines of the first `k`, then those of path `k`. */
  lemma PathLinesSnoc(paths: seq<Path>, k: nat)
    requires k < |paths|
    ensures PathLines(paths[..k + 1]) == PathLines(paths[..k]) + PathLine(paths[k])
  {
    var upto := paths[..k + 1];
    assert upto[..|upto| - 1] == paths[..k];
  }

  lemma AppendTwo(h: string, x: string, a: string, b: string, before: string, after: string)
    requires before == h + x && after == before + a + b
    ensures after == h + (x + (a + b))
  {
    ConcatAssoc(h, x, a + b);
    ConcatAssoc(before, a, b);
  }

  /** One pass of the serialisation loop: the header of entry `i`, then its path lines. */
  method AppendBlock(yaml: string, i: nat, thread: Thread) returns (out: string)
    ensures out == yaml + Block(i, thread)
  {
    out := AppendHeader(yaml, i, thread);
    out := AppendPathLines(out, thread.paths);
    ConcatAssoc(yaml, BlockHeader(i, thread), PathLines(thread.paths));
  }

  /** The loop that accumulates `yaml_content`, one entry at a time. */
  method SerializeThreads(threads: seq<Thread>) returns (yaml: string)
    ensures yaml == Yaml(threads)
  {
    yaml := "threads:\n";
    assert threads[..0] == [];
    assert yaml == Yaml(threads[..0]);
    for i := 0 to |threads|
      invariant yaml == Yaml(threads[..i])
    {
      yaml := AppendBlock(yaml, i, threads[i]);
      YamlSnoc(threads, i);
    }
    assert threads[..|threads|] == threads;
  }

  /** The whole script: generate the 48 entries, then write them out. */
  method GenerateGrid() returns (threads: seq<Thread>, yaml: string)
    ensures |threads| == Rows * Cols
    ensures forall i :: 0 <= i < |threads| ==> threads[i] == Unit(i / Cols, i % Cols)
    ensures yaml == Yaml(threads)
  {
    threads := GenerateThreads();
    yaml := SerializeThreads(threads);
  }

  // ---------------------------------------------------------------------------
  // Reading path lines back

  /** Consumes the literal `lit` from the front of `s`. */
  function Expect(lit: string, s: string): (r: Option<string>)
    ensures r.Some? ==> |r.value| == |s| - |lit|
  {
    if lit <= s then Some(s[|lit|..]) else None
  }

  /** Reads one line written by `CoordLine(open, _)`. */
  function ParseCoordLine(open: string, s: string): (r: Option<(Coord, string)>)
    ensures r.Some? ==> |r.value.1| < |s|
  {
    var afterOpen :- Expect(open, s);
    var x :- ParseInt(afterOpen);
    var afterComma :- Expect(", ", x.1);
    var y :- ParseInt(afterComma);
    var afterLine :- Expect("]\n", y.1);
    Some((Coord(x.0, y.0), afterLine))
  }

  /** Reads the two lines written for one path. */
  function ParsePath(s: string): (r: Option<(Path, string)>)
    ensures r.Some? ==> |r.value.1| < |s|
  {
    var start :- ParseCoordLine(StartOpen, s);
    var end :- ParseCoordLine(EndOpen, start.1);
    Some((Path(start.0, end.0), end.1))
  }

  /** Reads path lines until the text runs out. */
  function ParsePathLines(s: string): Option<seq<Path>>
    decreases |s|
  {
    if s == [] then Some([])
    else
      var first :- ParsePath(s);
      var rest :- ParsePathLines(first.1);
      Some([first.0] + rest)
  }

  // ---------------------------------------------------------------------------
  // Properties of the text

  /** Reading a coordinate line back gives the coordinate and the text after the line. */
  lemma CoordLineRoundTrip(open: string, c: Coord, rest: string)
    ensures ParseCoordLine(open, CoordLine(open, c) + rest) == Some((c, rest))
  {
    var xs, ys := IntToString(c.x), IntToString(c.y);
    assert Str(c.x) == xs && Str(c.y) == ys;
    var tail := "]\n" + rest;
    var afterComma := ys + tail;
    var afterOpen := xs + (", " + afterComma);
    assert CoordLine(open, c) + rest == open + afterOpen;
    assert Expect(open, open + afterOpen) == Some(afterOpen);
    ParseIntRoundTrip(c.x, ", " + afterComma);
    assert Expect(", ", ", " + afterComma) == Some(afterComma);
    ParseIntRoundTrip(c.y, tail);
    assert Expect("]\n", tail) == Some(rest);
  }

  /** Reading a path's two lines back gives the path and the text after them. */
  lemma PathLineRoundTrip(path: Path, rest: string)
    ensures ParsePath(PathLine(path) + rest) == Some((path, rest))
  {
    var endText := CoordLine(EndOpen, path.end) + rest;
    assert PathLine(path) + rest == CoordLine(StartOpen, path.start) + endText;
    CoordLineRoundTrip(StartOpen, path.start, endText);
    CoordLineRoundTrip(EndOpen, path.end, rest);
  }

  /** The lines of a list of paths are the first path's lines followed by the lines of the others. */
  lemma {:induction false} PathLinesCons(paths: seq<Path>)
    requires paths != []
    ensures PathLines(paths) == PathLine(paths[0]) + PathLines(paths[1..])
  {
    if |paths| == 1 {
      assert paths[..0] == [];
      assert paths[1..] == [];
    } else {
      PathLinesCons(paths[..|paths| - 1]);
      PathLinesConsStep(paths);
    }
  }

  /** The step of `PathLinesCons`: from the paths without the last one to all of them. */
  lemma PathLinesConsStep(paths: seq<Path>)
    requires |paths| >= 2
    requires var init := paths[..|paths| - 1];
      PathLines(init) == PathLine(init[0]) + PathLines(init[1..])
    ensures PathLines(paths) == PathLine(paths[0]) + PathLines(paths[1..])
  {
    var init := paths[..|paths| - 1];
    var last := PathLine(paths[|paths| - 1]);
    var tail := paths[1..];
    assert init[0] == paths[0];
    assert tail[..|tail| - 1] == init[1..];
    assert tail[|tail| - 1] == paths[|paths| - 1];
    assert PathLines(tail) == PathLines(init[1..]) + last;
    calc {
      PathLines(paths);
      PathLines(init) + last;
      (PathLine(paths[0]) + PathLines(init[1..])) + last;
      { ConcatAssoc(PathLine(paths[0]), PathLines(init[1..]), last); }
      PathLine(paths[0]) + (PathLines(init[1..]) + last);
      PathLine(paths[0]) + PathLines(tail);
    }
  }

  /** The path lines of the YAML text determine the paths they were written from, in order. */
  lemma {:induction false} PathLinesRoundTrip(paths: seq<Path>)
    ensures ParsePathLines(PathLines(paths)) == Some(paths)
  {
    if paths != [] {
      PathLinesRoundTrip(paths[1..]);
      PathLinesRoundTripStep(paths);
    }
  }

  /** The step of `PathLinesRoundTrip`: reading the first path's lines, then the others'. */
  lemma PathLinesRoundTripStep(paths: seq<Path>)
    requires paths != []
    requires ParsePathLines(PathLines(paths[1..])) == Some(paths[1..])
    ensures ParsePathLines(PathLines(paths)) == Some(paths)
  {
    PathLinesCons(paths);
    PathLineRoundTrip(paths[0], PathLines(paths[1..]));
    assert [paths[0]] + paths[1..] == paths;
  }

  /**
   * The translation comment is written exactly when an offset is positive,
   * and it names exactly the positive offsets, x before y, joined by `and`.
   */
  lemma TranslationCommentNamesOffsets(xOffset: int, yOffset: int)
    ensures TranslationComment(xOffset, yOffset) == "" <==> xOffset <= 0 && yOffset <= 0
    ensures xOffset > 0 && yOffset <= 0 ==>
      TranslationComment(xOffset, yOffset) == ThreadsNote("+" + Str(xOffset) + " in x")
    ensures xOffset <= 0 && yOffset > 0 ==>
      TranslationComment(xOffset, yOffset) == ThreadsNote("+" + Str(yOffset) + " in y")
    ensures xOffset > 0 && yOffset > 0 ==>
      TranslationComment(xOffset, yOffset)
      == ThreadsNote("+" + Str(xOffset) + " in x" + " and " + ("+" + Str(yOffset) + " in y"))
  {
    var parts := TranslationParts(xOffset, yOffset);
    if xOffset > 0 && yOffset > 0 {
      assert Join(parts, " and ") == parts[0] + " and " + parts[1];
    } else if xOffset > 0 || yOffset > 0 {
      assert |parts| == 1;
    }
  }

  /** A string is a prefix of itself followed by anything. */
  lemma PrefixOfConcat(a: string, b: string)
    ensures a <= a + b
  {
    assert (a + b)[..|a|] == a;
  }

  lemma PrefixOfEqual(a: string, b: string, c: string)
    requires a == b && b <= c
    ensures a <= c
  {
  }

  lemma PrefixOfLeftNest(a: string, b: string, c: string, d: string, e: string, f: string, g: string)
    ensures a <= a + b + c + d + e + f + g
  {
    var rest := b + c + d + e + f + g;
    assert a + b + c + d + e + f + g == a + rest;
    PrefixOfConcat(a, rest);
  }

  /**
   * Whatever the entry holds, the block written for entry `i` opens with the
   * comment `Unit c,r` for column `i % 6 + 1` and row `i / 6 + 1`.
   */
  lemma BlockNamesItsUnit(i: nat, thread: Thread)
    ensures "  # Unit " + Str(i % 6 + 1) + "," + Str(i / 6 + 1) <= Block(i, thread)
  {
    PrefixOfLeftNest(UnitName(i / 6 + 1, i % 6 + 1), Placement(i / 6 + 1, i % 6 + 1), "\n",
                     ColorLine(thread.color), PathsKey, TranslationComment(XOffset(i), YOffset(i)), PathLines(thread.paths));
  }

  /**
   * The translation comment of entry `i` is about the very offsets by which the
   * paths of its unit were moved, and only the first unit, which is not moved,
   * has none.
   */
  lemma GeneratedBlockNamesItsOffsets(i: nat)
    requires i < Rows * Cols
    ensures var row, col := i / Cols, i % Cols;
      forall k :: 0 <= k < |BasePaths| ==>
        Unit(row, col).paths[k] == Translate(TransformPath(BasePaths[k], row % 2, col % 2), XOffset(i), YOffset(i))
    ensures TranslationComment(XOffset(i), YOffset(i)) == "" <==> i == 0
  {
    assert XOffset(i) == (i % Cols) * UnitSize && YOffset(i) == (i / Cols) * UnitSize;
    TranslationCommentNamesOffsets(XOffset(i), YOffset(i));
  }

  /** The blocks of a prefix of the entries are a prefix of the blocks of all of them. */
  lemma {:induction false} BlocksPrefix(threads: seq<Thread>, n: nat)
    requires n <= |threads|
    ensures Blocks(threads[..n]) <= Blocks(threads)
    decreases |threads|
  {
    if n < |threads| {
      var init := threads[..|threads| - 1];
      assert init[..n] == threads[..n];
      BlocksPrefix(init, n);
    } else {
      assert threads[..n] == threads;
    }
  }

  lemma BlocksSnoc(threads: seq<Thread>, i: nat)
    requires i < |threads|
    ensures Blocks(threads[..i + 1]) == Blocks(threads[..i]) + Block(i, threads[i])
  {
    var upto := threads[..i + 1];
    assert upto[..|upto| - 1] == threads[..i];
  }

  /** Each entry adds its block at the end of the document written so far. */
  lemma YamlSnoc(threads: seq<Thread>, i: nat)
    requires i < |threads|
    ensures Yaml(threads[..i]) + Block(i, threads[i]) == Yaml(threads[..i + 1])
  {
    BlocksSnoc(threads, i);
    ConcatAssoc("threads:\n", Blocks(threads[..i]), Block(i, threads[i]));
  }

  lemma PrefixAfterHeader(h: string, a: string, all: string)
    requires a <= all
    ensures h + a <= h + all
  {
    var more := all[|a|..];
    assert all == a + more;
    ConcatAssoc(h, a, more);
    PrefixOfConcat(h + a, more);
  }

  /** The document written for the first `n` entries is a prefix of the whole document. */
  lemma YamlPrefix(threads: seq<Thread>, n: nat)
    requires n <= |threads|
    ensures Yaml(threads[..n]) <= Yaml(threads)
  {
    BlocksPrefix(threads, n);
    PrefixAfterHeader("threads:\n", Blocks(threads[..n]), Blocks(threads));
  }

  /**
   * The document holds the entries in list order: it opens with the text
   * written for entries `0 .. i-1`, followed directly by the block of entry `i`.
   */
  lemma YamlInOrder(threads: seq<Thread>, i: nat)
    requires i < |threads|
    ensures Yaml(threads[..i]) + Block(i, threads[i]) <= Yaml(threads)
  {
    YamlSnoc(threads, i);
    YamlPrefix(threads, i + 1);
    PrefixOfEqual(Yaml(threads[..i]) + Block(i, threads[i]), Yaml(threads[..i + 1]), Yaml(threads));
  }
}

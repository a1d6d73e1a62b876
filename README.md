# Embroidery mesh and tiled pattern, modelled in Dafny

This project models two small scripts of an embroidery-pattern repository.

- `create_mesh.py` draws an embroidery mesh. It makes a white square canvas and draws `size + 1`
  vertical and `size + 1` horizontal grid lines. It then draws a dot at each of the
  `(size + 1)^2` intersections. Last, for each entry of an optional threads file, it draws a line
  from the centre of the entry's start cell to the centre of its end cell, and saves the image.
  Each imaging call becomes a `Command` value (`NewImage`, `Line`, `Ellipse`, `Save`). On a
  run that saves its image, they are appended to a sequence in the order the script issues them.
- `generate_grid.py` builds a tiled pattern of 8 rows by 6 columns of 5x5 units. It takes nine
  base paths and mirrors them by the parity of each unit's row and column. It then moves them to
  the unit's place and colours the unit red or blue like a checkerboard. Finally it writes the 48
  entries as YAML-shaped text.

Modules:

- `Wrappers` (`wrappers.dfy`) holds `Option` and `Result`.
- `Mesh` (`mesh.dfy`) models the mesh planner.
  - `CreateEmbroideryMesh` is proved equal to the specification function `Plan`.
  - It is built from one method per drawing loop: `DrawGridLines`, `DrawDots` and `DrawThreads`.
- `Grid` (`grid.dfy`) holds the base paths, `transform_path` and the generation loops.
- `GridYaml` (`grid_yaml.dfy`) models the text the generator writes.
  - It has the loop that accumulates the text (`SerializeThreads`) and the functions it is proved
    against (`Yaml`, `Block`, …).
  - It also has a parser for the path lines. The parser shows that the text determines the
    generated paths.
- `Decimal` (`decimal.dfy`) is Python's `str` on integers, as interpolated into the text, together
  with its inverse.

Both scripts use exact arithmetic except one division: the cell centre `padding + k*cell_size +
cell_size/2`. It is a real number and is modelled with `real`, where `cell_size / 2` is exact.

Two points of behaviour are worth knowing:

- **Short coordinate lists.** A `start` or `end` list that exists but has fewer than two items
  makes `start[1]` / `end[1]` raise `IndexError` (create_mesh.py:105-108). The run then ends
  before `img.save`. `Plan` returns `Err(IndexError(k))` for the first such entry `k`.
- **Parity `(1, 0)`.** The source comment at generate_grid.py:31 says it mirrors "both axes".
  The code mirrors only y, and `TransformPath` does the same.

## Model

| member | source | states |
|---|---|---|
| Mesh.CreateEmbroideryMesh | create_mesh.py:29-121 | On a run that saves, the drawing calls are exactly `Plan`: the lattice, then one line per entry, then the save. Otherwise the script's own code fails, with the index error of the first malformed entry. Threads come only from a named file. |
| Mesh.LoadThreads | create_mesh.py:11-26 | No contract of its own: a missing file or a document without `threads` gives no entries. `NoThreadsOnlyLattice` states what the run then draws. |
| Mesh.ThreadsOf | create_mesh.py:93-96 | No contract of its own: threads are loaded only when a file is named. `CreateEmbroideryMesh` and `NoThreadsOnlyLattice` state it for the run. |
| Mesh.DrawGridLines | create_mesh.py:59-75 | The grid loop appends, for each boundary `0..size` in turn, its vertical line and then its horizontal line. |
| Mesh.DrawDots | create_mesh.py:78-91 | The nested loops append the dots column by column, and each column top to bottom. |
| Mesh.DrawThreads | create_mesh.py:99-114 | If every entry is drawable, one line per entry is appended in list order. Otherwise the result is `IndexError` of the first entry whose `start` or `end` is too short. |
| Mesh.LatticeLayout | create_mesh.py:49-91 | The lattice has `1 + 2(size+1) + (size+1)^2` commands. The first is a square canvas of side `size*cell_size + 1 + 2*20`. Vertical line `i` is at `1 + 2i` and horizontal line `i` right after it. Dot `(i, j)` is at `DotPosition(size, i, j)`. |
| Mesh.LatticeDotAt | create_mesh.py:79-91 | The dot for boundaries `(i, j)` comes after the canvas, all grid lines and `i` full columns of dots, at offset `j`. |
| Mesh.GridLinesAt | create_mesh.py:59-75 | `n` boundaries give `2n` lines. Boundary `i` gives the vertical line at `2i` and the horizontal line at `2i + 1`. |
| Mesh.DotColumnAt | create_mesh.py:80-91 | A column has `n` dots; dot `j` is the box of radius 1 around boundary `(i, j)`. |
| Mesh.DotsLength | create_mesh.py:79-91 | `m` columns of `n` dots hold `m*n` dots. |
| Mesh.DotsAt | create_mesh.py:79-91 | Dot `(i, j)` sits right after the dots of columns `0..i-1`, at offset `j`. |
| Mesh.ThreadLinesAt | create_mesh.py:99-114 | There is one line per entry, and the line for entry `k` is at position `k`. |
| Mesh.PlanLayout | create_mesh.py:93-117 | When every entry is drawable, the run succeeds. Its commands are the lattice, then the line of entry `k` at the lattice length plus `k`, then the save as the last command. |
| Mesh.NoThreadsOnlyLattice | create_mesh.py:21-26 | With no threads file, a path with no file, or a document without `threads`, the run draws only the lattice and saves. |
| Mesh.EntryDefaults | create_mesh.py:100-108 | An entry is drawable exactly when each coordinate list it has holds at least two items. A missing colour is drawn black and a missing start or end is cell `(0, 0)`. A present start or end is used as given, and the line has the thread width. |
| Mesh.PlanFailsOnlyOnShortLists | create_mesh.py:99-108 | The script's own code fails if and only if some entry has a `start` or `end` list shorter than two, the imaging calls being taken to succeed. The reported entry is such an entry, and all entries before it are drawable. |
| Mesh.FirstMalformed | create_mesh.py:99-108 | The index returned is of an undrawable entry, and every earlier entry is drawable. |
| Mesh.FirstMalformedAt | create_mesh.py:99-108 | An undrawable entry after only drawable ones is the one the run reports. |
| Mesh.LatticeInsideCanvas | create_mesh.py:49-75 | Every boundary lies between the padding and the last lattice pixel, and boundary `size` is exactly the last pixel. The margin after it is 20 pixels, the same as before boundary 0. Every dot box lies inside the canvas. |
| Mesh.CentreInsideCell | create_mesh.py:105-108 | For `cell_size >= 1` the centre of cell `k` lies strictly between boundaries `k` and `k + 1`. |
| Mesh.CentreIncreasing | create_mesh.py:105-108 | For `cell_size >= 1`, cell centres strictly increase with the cell index. |
| Mesh.CentreInsideLattice | create_mesh.py:105-108 | The centre of each of the `size` cells lies strictly inside the lattice. |
| Grid.TransformPath | generate_grid.py:19-35 | No contract of its own. Its properties are carried by `TransformKeepsSameParity`, `TransformMirrors`, `TransformInvolution`, `TransformStaysInUnit` and `TransformKeepsDiagonal`. |
| Grid.TransformKeepsSameParity | generate_grid.py:24-35 | Parities `(0, 0)` and `(1, 1)` return the path unchanged. |
| Grid.TransformMirrors | generate_grid.py:27-32 | Parity `(0, 1)` maps x to `5 - x` and keeps y. Parity `(1, 0)` maps y to `5 - y` and keeps x. |
| Grid.TransformInvolution | generate_grid.py:19-35 | Applying the transformation twice with the same parities gives back the path. |
| Grid.TransformStaysInUnit | generate_grid.py:19-35 | A path inside `[0, 5]^2` stays inside it for every pair of parities. |
| Grid.TransformKeepsDiagonal | generate_grid.py:19-35 | A 45-degree path (`abs(dx) == abs(dy)`) stays at 45 degrees. |
| Grid.BasePathsShape | generate_grid.py:7-17 | There are nine base paths, each inside `[0, 5]^2` and at 45 degrees. |
| Grid.GenerateThreads | generate_grid.py:38-61 | The loops produce 48 entries in row-major order. Entry `i` is the unit of row `i / 6` and column `i % 6`. |
| Grid.UnitFromPaths | generate_grid.py:50-61 | The nine paths built by the inner loop, in the checkerboard colour, are the unit's entry. |
| Grid.UnitIndex | generate_grid.py:39-40 | The entry appended at `(row, col)` has index `row*6 + col`, which decodes back to `row` and `col`. |
| Grid.UnitShape | generate_grid.py:41-56 | Each unit has exactly nine paths. All are at 45 degrees and lie in `[5col, 5col+5] x [5row, 5row+5]`. |
| Grid.UnitColorRule | generate_grid.py:44 | A unit is red if and only if `row + col` is even, and blue if and only if it is odd. |
| Grid.CheckerboardNeighbours | generate_grid.py:44 | Horizontally or vertically adjacent units have different colours. |
| Grid.TilingWithinExtent | generate_grid.py:38-61 | Every generated path lies within `[0, 30] x [0, 40]`. |
| GridYaml.GenerateGrid | generate_grid.py:38-104 | The script produces the 48 units in row-major order and the text `Yaml` of exactly those entries. |
| GridYaml.SerializeThreads | generate_grid.py:64-104 | The accumulated text is `threads:` followed by the block of each entry, in list order. |
| GridYaml.AppendBlock | generate_grid.py:65-104 | One pass of the loop appends entry `i`'s block: its header, then its path lines. |
| GridYaml.ColDesc | generate_grid.py:73-79 | No contract of its own; `HeaderWording` states the word written for each of the six columns. |
| GridYaml.RowDesc | generate_grid.py:80-81 | No contract of its own; `HeaderWording` states that each middle row takes its name from `row_names`. |
| GridYaml.Placement | generate_grid.py:72-82 | No contract of its own: the top row, the bottom row and the middle rows get their own wording. `AppendHeader` writes it and `BlockNamesItsUnit` states what precedes it. |
| GridYaml.HeaderWording | generate_grid.py:72-82 | For the tiling's columns 1 to 6 the column word is `left`, `col-2`, `middle`, `middle`, `col-5`, `right`. Every middle row 2 to 7 is named from `row_names`, so the `{row}th` fallback is never used. |
| GridYaml.AppendHeader | generate_grid.py:65-99 | It appends the unit comment for 1-based `(i // 6 + 1, i % 6 + 1)`, the colour line, the `paths:` key and the translation comment. |
| GridYaml.AppendPathLines | generate_grid.py:102-104 | It appends the two lines of each path, in path order. |
| GridYaml.TranslationNote | generate_grid.py:88-99 | The comment built from the list of positive offsets is `TranslationComment`. |
| GridYaml.TranslationCommentNamesOffsets | generate_grid.py:91-99 | The translation comment is empty if and only if neither offset is positive. Otherwise it names exactly the positive offsets, x before y, joined by ` and `. |
| GridYaml.GeneratedBlockNamesItsOffsets | generate_grid.py:88-99 | The offsets named for entry `i` are the ones its unit's paths were moved by. Only entry 0 has no translation comment. |
| GridYaml.BlockNamesItsUnit | generate_grid.py:65-84 | Entry `i`'s block opens with `  # Unit c,r` for column `i % 6 + 1` and row `i // 6 + 1`. |
| GridYaml.YamlSnoc | generate_grid.py:64-104 | Each entry's block is appended after the text of the entries before it. |
| GridYaml.BlocksPrefix | generate_grid.py:64-104 | The blocks of the first `n` entries are a prefix of the blocks of all entries. |
| GridYaml.YamlPrefix | generate_grid.py:64-104 | The text for the first `n` entries is a prefix of the whole text. |
| GridYaml.YamlInOrder | generate_grid.py:64-104 | The whole text opens with the text of entries `0..i-1`, directly followed by entry `i`'s block. |
| GridYaml.CoordLineRoundTrip | generate_grid.py:103-104 | Reading back a `[x, y]` line gives the coordinate and the text after the line. |
| GridYaml.PathLineRoundTrip | generate_grid.py:103-104 | Reading back a path's `start` and `end` lines gives the path and the text after them. |
| GridYaml.PathLinesCons | generate_grid.py:102-104 | The lines of a list of paths are the first path's lines, then the rest's. |
| GridYaml.PathLinesRoundTrip | generate_grid.py:102-104 | The path lines written for a unit read back to exactly its paths, in order. |
| Decimal.IntToString | generate_grid.py:103-104 | The text of an integer is not empty and starts with `-` if and only if the integer is negative. |
| Decimal.NatToStringValue | generate_grid.py:103-104 | The text of a natural number is all digits and denotes it. Only zero starts with `0`. |
| Decimal.ParseNatRoundTrip | generate_grid.py:103-104 | Reading the digits written for `n`, up to a non-digit, gives `n` and the rest. |
| Decimal.ParseIntRoundTrip | generate_grid.py:103-104 | Reading back what `str(n)` wrote for any integer `n`, up to a non-digit, gives `n` and the rest. |

## Left out

- Rasterisation and saving by the imaging library (`Image.new`, `draw.line`, `draw.ellipse`,
  `img.save`) are foreign code. Each call is recorded as a `Command` value instead.
- File and console I/O are left out:
  - `os.path.exists` and `json.load` are replaced by the `ThreadsFile` value (`Missing` or a
    parsed `Document`);
  - a JSON document that is not an object, a `threads` value that is not a list, a thread entry
    that is not an object (`thread.get` raises `AttributeError`), a `color` that is not a string,
    and coordinates that are not lists of integers are not modelled;
  - writing `threebyfour.yaml` and every `print` call are left out.
- An empty `threads_file` string is falsy in Python and means no threads. The model expresses
  this by the caller passing `None`.
- The command-line parsing of `create_mesh.py` (lines 124-164) is plumbing and is not part of this
  model.
- `cell_size / 2` is a float in Python and is modelled as an exact `real`. Float rounding and
  anti-aliasing are not modelled.
- `size` and `cell_size` are natural numbers; negative values are not modelled. Python accepts
  them: the imaging library rejects only a negative side, that is `size*cell_size < -41`.
  Otherwise the script makes the image. A negative `size` draws no grid lines and no dots, since
  `range(size + 1)` is empty. A `size >= 0` with a negative `cell_size` draws all `size + 1` lines
  of each direction, at decreasing and possibly negative offsets.
- Coordinates beyond the first two items of a `start` or `end` list are ignored, as in the code.
  Their types are not checked.
- There is no end-to-end link between the two scripts. The generator writes `paths` lists, while
  the renderer reads flat `start`/`end` entries.
- The `f'{row}th'` fallback of `row_names.get` is modelled but unreachable,
  because rows 2 to 7 all have names (`HeaderWording`).
- Mesh.PlanFailsOnlyOnShortLists: the imaging calls are taken to succeed. In the real run an
  unknown colour name (or `""`) makes `draw.line` raise `ValueError` before `img.save`, and
  `img.save` itself can fail; `Plan` returns `Ok` for such runs and the lemma counts them as not
  failing.
- Mesh.CreateEmbroideryMesh: on an `IndexError`, the calls already made on the unsaved canvas
  (the lattice and the lines of the entries before the failing one) are not returned. Only the
  error is, because nothing is saved.
- `GridYaml.PathLinesRoundTrip`: only the path lines are read back. The header comment, colour and
  translation lines are checked by `BlockNamesItsUnit` and `TranslationCommentNamesOffsets`, not by
  a parser.

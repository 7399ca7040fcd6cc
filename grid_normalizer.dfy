/** The grid normaliser: turns a client-supplied grid descriptor into a canonical grid
    whose cell list has exactly the length its shape calls for (`buildCells` and
    `buildGrid` in backend/routes/projects.js). */
module GridNormalizer {
  import opened Wrappers
  import Json
  import Text

  const DEFAULT_ROWS: int := 4
  const DEFAULT_COLS: int := 7

  /** A stored grid: its label (`name`, the `label` field of the stored document), a
      shape and its cells in row-major order. */
  datatype Grid = Grid(name: string, rows: int, cols: int, cells: seq<bool>)

  /** A grid descriptor as a request body carries it.
      `name`: the `label` string given, None when absent or null.
      `rows`, `cols`: the integer given, None when absent or null.
      `cells`: the array given, None when absent. */
  datatype GridInput = GridInput(
    name: Option<string>,
    rows: Option<int>,
    cols: Option<int>,
    cells: Option<seq<Json.Value>>)

  /** The descriptor `{}`. */
  const EmptyInput: GridInput := GridInput(None, None, None, None)

  /** `Number(x) || fallback` for an integer or absent `x` (absent and null give NaN or 0,
      both falsy); also `x ? Number(x) : fallback`, which agrees with it on such inputs. */
  function NumberOr(x: Option<int>, fallback: int): (n: int)
    ensures x.Some? && x.value != 0 ==> n == x.value
    ensures x.None? || x.value == 0 ==> n == fallback
    ensures fallback != 0 ==> n != 0
  {
    if x.Some? && x.value != 0 then x.value else fallback
  }

  /** The length of `Array.from({ length: total })` for an integer total: ToLength turns
      a negative length into 0. */
  function ArrayLength(total: int): (n: nat)
    ensures total >= 0 ==> n == total
    ensures total < 0 ==> n == 0
  {
    if total < 0 then 0 else total
  }

  /** `buildCells(cells, rows, cols)`: exactly `rows * cols` cells; position `idx` holds
      the truthiness of `cells[idx]` where the input has one and false past its end, so a
      longer input is cut off and a shorter one padded with false. */
  function BuildCells(cells: seq<Json.Value>, rows: int, cols: int): (r: seq<bool>)
    ensures |r| == ArrayLength(rows * cols)
    ensures rows > 0 && cols > 0 ==> |r| == rows * cols
    ensures forall idx :: 0 <= idx < |r| && idx < |cells| ==> r[idx] == Json.Truthy(cells[idx])
    ensures forall idx :: |cells| <= idx < |r| ==> !r[idx]
  {
    seq(ArrayLength(rows * cols), idx requires 0 <= idx => idx < |cells| && Json.Truthy(cells[idx]))
  }

  /** `Cuadrilla ${index + 1}`: the label of a grid that has none, never empty and with no
      whitespace at its ends. */
  function DefaultLabel(index: nat): (s: string)
    ensures s != [] && Text.IsTrimmed(s)
  {
    "Cuadrilla " + Text.DecimalString(index + 1)
  }

  /** A grid in the form every write path stores: a non-empty label with no whitespace at
      its ends, a non-zero shape and exactly as many cells as that shape calls for. */
  predicate IsCanonical(g: Grid) {
    && g.name != []
    && Text.IsTrimmed(g.name)
    && g.rows != 0
    && g.cols != 0
    && |g.cells| == ArrayLength(g.rows * g.cols)
  }

  /** `buildGrid(grid, index)`: rows and cols default to 4 and 7 when absent or zero; the
      trimmed label is kept when non-empty and otherwise replaced by the label of position
      `index`; the cells are resized to the shape. */
  function BuildGrid(d: GridInput, index: nat): (g: Grid)
    ensures IsCanonical(g)
    ensures d.rows.None? || d.rows == Some(0) ==> g.rows == DEFAULT_ROWS
    ensures d.rows.Some? && d.rows.value != 0 ==> g.rows == d.rows.value
    ensures d.cols.None? || d.cols == Some(0) ==> g.cols == DEFAULT_COLS
    ensures d.cols.Some? && d.cols.value != 0 ==> g.cols == d.cols.value
    ensures d.name.Some? && Text.Trim(d.name.value) != [] ==> g.name == Text.Trim(d.name.value)
    ensures d.name.None? || Text.Trim(d.name.value) == [] ==> g.name == DefaultLabel(index)
    ensures g.cells == BuildCells(d.cells.GetOr([]), g.rows, g.cols)
  {
    var rows := NumberOr(d.rows, DEFAULT_ROWS);
    var cols := NumberOr(d.cols, DEFAULT_COLS);
    var trimmed := if d.name.Some? then Text.Trim(d.name.value) else "";
    Grid(
      if trimmed != "" then trimmed else DefaultLabel(index),
      rows,
      cols,
      BuildCells(d.cells.GetOr([]), rows, cols))
  }

  /** A grid as its JSON serialisation reads back as a descriptor. */
  function AsInput(g: Grid): GridInput {
    GridInput(Some(g.name), Some(g.rows), Some(g.cols), Some(Json.FromBools(g.cells)))
  }

  /** `n` false cells. */
  function Falses(n: nat): (r: seq<bool>)
    ensures |r| == n && forall i :: 0 <= i < n ==> !r[i]
  {
    seq(n, _ => false)
  }

  /** Each input value reduced to its truthiness. */
  function Truthies(vs: seq<Json.Value>): (r: seq<bool>)
    ensures |r| == |vs| && forall i :: 0 <= i < |vs| ==> r[i] == Json.Truthy(vs[i])
  {
    seq(|vs|, i requires 0 <= i < |vs| => Json.Truthy(vs[i]))
  }

  /** `BuildCells` is truncate-or-pad: the first `rows * cols` inputs reduced to booleans,
      followed by false cells when the input is too short. */
  lemma BuildCellsTruncatesOrPads(cells: seq<Json.Value>, rows: int, cols: int)
    ensures var n := ArrayLength(rows * cols);
      BuildCells(cells, rows, cols)
        == if |cells| >= n then Truthies(cells[..n]) else Truthies(cells) + Falses(n - |cells|)
  {
  }

  /** Booleans already of the right length come back unchanged. */
  lemma BuildCellsOfBools(bs: seq<bool>, rows: int, cols: int)
    requires |bs| == ArrayLength(rows * cols)
    ensures BuildCells(Json.FromBools(bs), rows, cols) == bs
  {
  }

  /** `buildGrid({}, index)`: a 4 by 7 grid of 28 false cells labelled after its position. */
  lemma DefaultGrid(index: nat)
    ensures BuildGrid(EmptyInput, index) == Grid(DefaultLabel(index), 4, 7, Falses(28))
  {
  }

  /** Two positions never share a default label. */
  lemma DefaultLabelInjective(i: nat, j: nat)
    ensures DefaultLabel(i) == DefaultLabel(j) ==> i == j
  {
    var prefix := "Cuadrilla ";
    if DefaultLabel(i) == DefaultLabel(j) {
      assert Text.DecimalString(i + 1) == DefaultLabel(i)[|prefix|..];
      assert Text.DecimalString(j + 1) == DefaultLabel(j)[|prefix|..];
      Text.DecimalStringInjective(i + 1, j + 1);
    }
  }

  /** A canonical grid, sent back as a descriptor, normalises to itself at any position. */
  lemma CanonicalIsFixedPoint(g: Grid, index: nat)
    requires IsCanonical(g)
    ensures BuildGrid(AsInput(g), index) == g
  {
    Text.TrimOfTrimmed(g.name);
  }

  /** Normalising is idempotent: the output of `buildGrid`, normalised again at any
      position, is returned unchanged. */
  lemma BuildGridIdempotent(d: GridInput, index: nat, again: nat)
    ensures BuildGrid(AsInput(BuildGrid(d, index)), again) == BuildGrid(d, index)
  {
  }
}

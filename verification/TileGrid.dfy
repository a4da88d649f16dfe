/**
  Sizes and indices over the tile grid: the parallel reduction that computes the frame size
  (network/dash.protocal.cpp), the tile size derived from it (network/dash.manager.cpp), and
  the plugin's tile numbering (gallery/plugin.cpp).
 */
module TileGrid {
  import opened Arithmetic
  import opened Sequences

  type Coordinate = (nat, nat)

  datatype Dimension = Dimension(width: nat, height: nat)

  // One way in which a parallel reduction may combine the initial value and the terms.
  datatype Reduction = Initial | Term(tile: Coordinate) | Combine(left: Reduction, right: Reduction)

  // The size of a tile depends on its column and its row only.
  function SizeAt(widths: seq<nat>, heights: seq<nat>, tile: Coordinate): Dimension {
    if tile.0 < |widths| && tile.1 < |heights| then Dimension(widths[tile.0], heights[tile.1]) else Dimension(0, 0)
  }

  function Add(a: Dimension, b: Dimension): Dimension {
    Dimension(a.width + b.width, a.height + b.height)
  }

  function Value(r: Reduction, widths: seq<nat>, heights: seq<nat>): Dimension {
    match r
    case Initial => Dimension(0, 0)
    case Term(tile) => SizeAt(widths, heights, tile)
    case Combine(left, right) => Add(Value(left, widths, heights), Value(right, widths, heights))
  }

  // The terms of a reduction, from left to right.
  function Terms(r: Reduction): seq<Coordinate> {
    match r
    case Initial => []
    case Term(tile) => [tile]
    case Combine(left, right) => Terms(left) + Terms(right)
  }

  function Total(tiles: seq<Coordinate>, widths: seq<nat>, heights: seq<nat>): Dimension {
    if tiles == [] then Dimension(0, 0)
    else Add(SizeAt(widths, heights, tiles[0]), Total(tiles[1..], widths, heights))
  }

  lemma {:induction false} TotalConcat(a: seq<Coordinate>, b: seq<Coordinate>, widths: seq<nat>, heights: seq<nat>)
    ensures Total(a + b, widths, heights) == Add(Total(a, widths, heights), Total(b, widths, heights))
    decreases |a|
  {
    if a == [] {
      PrependNothing(b);
    } else {
      TotalConcat(a[1..], b, widths, heights);
      assert (a + b)[0] == a[0] && (a + b)[1..] == a[1..] + b;
    }
  }

  lemma {:induction false} ValueIsTotal(r: Reduction, widths: seq<nat>, heights: seq<nat>)
    ensures Value(r, widths, heights) == Total(Terms(r), widths, heights)
  {
    match r {
      case Initial =>
      case Term(tile) => assert [tile][1..] == [];
      case Combine(left, right) =>
        ValueIsTotal(left, widths, heights);
        ValueIsTotal(right, widths, heights);
        TotalConcat(Terms(left), Terms(right), widths, heights);
    }
  }

  lemma {:induction false} TotalMovesFront(tiles: seq<Coordinate>, k: nat, widths: seq<nat>, heights: seq<nat>)
    requires k < |tiles|
    ensures Total(tiles, widths, heights) ==
            Add(SizeAt(widths, heights, tiles[k]), Total(tiles[..k] + tiles[k + 1..], widths, heights))
  {
    var before, after := tiles[..k], tiles[k + 1..];
    assert tiles == before + ([tiles[k]] + after);
    TotalConcat(before, [tiles[k]] + after, widths, heights);
    TotalConcat(before, after, widths, heights);
    assert ([tiles[k]] + after)[1..] == after;
  }

  lemma {:induction false} WithoutOne(tiles: seq<Coordinate>, k: nat)
    requires k < |tiles|
    ensures multiset(tiles[..k] + tiles[k + 1..]) == multiset(tiles) - multiset{tiles[k]}
  {
    assert tiles == tiles[..k] + [tiles[k]] + tiles[k + 1..];
  }

  // The total does not depend on the order.
  lemma {:induction false} TotalOfPermutation(a: seq<Coordinate>, b: seq<Coordinate>, widths: seq<nat>, heights: seq<nat>)
    requires multiset(a) == multiset(b)
    ensures Total(a, widths, heights) == Total(b, widths, heights)
    decreases |a|
  {
    hide SizeAt;
    if a == [] {
      assert |b| == |multiset(b)| == 0;
    } else {
      assert a[0] in multiset(b);
      var k :| 0 <= k < |b| && b[k] == a[0];
      WithoutOne(a, 0);
      WithoutOne(b, k);
      PrependNothing(a[1..]);
      assert a[..0] == [];
      TotalOfPermutation(a[1..], b[..k] + b[k + 1..], widths, heights);
      TotalMovesFront(b, k, widths, heights);
    }
  }

  function Sum(ns: seq<nat>): nat {
    if ns == [] then 0 else Sum(ns[..|ns| - 1]) + ns[|ns| - 1]
  }

  // The first tiles of a column, and the first columns of a grid.
  function Column(col: nat, rows: nat): seq<Coordinate> {
    if rows == 0 then [] else Column(col, rows - 1) + [(col, rows - 1)]
  }

  function Cells(cols: nat, rows: nat): seq<Coordinate> {
    if cols == 0 then [] else Cells(cols - 1, rows) + Column(cols - 1, rows)
  }

  lemma {:induction false} TotalOfOne(tile: Coordinate, widths: seq<nat>, heights: seq<nat>)
    ensures Total([tile], widths, heights) == SizeAt(widths, heights, tile)
  {
    assert [tile][1..] == [];
  }

  lemma {:induction false} SumStep(ns: seq<nat>, n: nat)
    requires n < |ns|
    ensures Sum(ns[..n + 1]) == Sum(ns[..n]) + ns[n]
  {
    assert ns[..n + 1][..n] == ns[..n];
  }

  lemma {:induction false} ColumnTotal(widths: seq<nat>, heights: seq<nat>, col: nat, rows: nat)
    requires col < |widths| && rows <= |heights|
    ensures Total(Column(col, rows), widths, heights) == Dimension(rows * widths[col], Sum(heights[..rows]))
  {
    hide Total, Sum;
    if rows > 0 {
      ColumnTotal(widths, heights, col, rows - 1);
      TotalConcat(Column(col, rows - 1), [(col, rows - 1)], widths, heights);
      TotalOfOne((col, rows - 1), widths, heights);
      SumStep(heights, rows - 1);
      Distribute(rows, 1, widths[col]);
    } else {
      NothingTotals(widths, heights);
    }
  }

  lemma {:induction false} NothingTotals(widths: seq<nat>, heights: seq<nat>)
    ensures Total([], widths, heights) == Dimension(0, 0) && Sum(widths[..0]) == 0 && Sum(heights[..0]) == 0
  {
  }

  lemma {:induction false} CellsTotal(widths: seq<nat>, heights: seq<nat>, cols: nat)
    requires cols <= |widths|
    ensures Total(Cells(cols, |heights|), widths, heights) == Dimension(|heights| * Sum(widths[..cols]), cols * Sum(heights))
  {
    hide Total, Sum, Column;
    var rows := |heights|;
    if cols > 0 {
      CellsTotal(widths, heights, cols - 1);
      ColumnTotal(widths, heights, cols - 1, rows);
      TotalConcat(Cells(cols - 1, rows), Column(cols - 1, rows), widths, heights);
      assert heights[..rows] == heights;
      SumStep(widths, cols - 1);
      AddProducts(rows, Sum(widths[..cols - 1]), widths[cols - 1]);
      Distribute(cols, 1, Sum(heights));
    } else {
      NothingTotals(widths, heights);
    }
  }

  lemma {:induction false} AddProducts(n: nat, a: nat, b: nat)
    ensures n * (a + b) == n * a + n * b
  {
  }

  // parse_scale_size: the sums divided by the number of rows and of columns.
  function ScaleSize(total: Dimension, cols: nat, rows: nat): Dimension
    requires cols > 0 && rows > 0
  {
    Dimension(total.width / rows, total.height / cols)
  }

  lemma {:induction false} DivideBack(d: nat, n: nat)
    requires d > 0
    ensures d * n / d == n
  {
    DivUnique(d * n, d, n, 0);
  }

  /**
    Over a full grid, however the reduction groups and orders its terms, the frame is as wide
    as the columns together and as high as the rows together.
   */
  lemma {:induction false} FrameSize(r: Reduction, widths: seq<nat>, heights: seq<nat>)
    requires widths != [] && heights != []
    requires multiset(Terms(r)) == multiset(Cells(|widths|, |heights|))
    ensures ScaleSize(Value(r, widths, heights), |widths|, |heights|) == Dimension(Sum(widths), Sum(heights))
  {
    ValueIsTotal(r, widths, heights);
    TotalOfPermutation(Terms(r), Cells(|widths|, |heights|), widths, heights);
    CellsTotal(widths, heights, |widths|);
    assert widths[..|widths|] == widths;
    DivideBack(|heights|, Sum(widths));
    DivideBack(|widths|, Sum(heights));
  }

  // The cells of a grid are its coordinates, each once.
  lemma {:induction false} CellsAre(cols: nat, rows: nat, tile: Coordinate)
    ensures multiset(Cells(cols, rows))[tile] == if tile.0 < cols && tile.1 < rows then 1 else 0
  {
    hide Column;
    if cols > 0 {
      CellsAre(cols - 1, rows, tile);
      ColumnIs(cols - 1, rows, tile);
      CountConcat(Cells(cols - 1, rows), Column(cols - 1, rows), tile);
    }
  }

  lemma {:induction false} CountConcat(a: seq<Coordinate>, b: seq<Coordinate>, tile: Coordinate)
    ensures multiset(a + b)[tile] == multiset(a)[tile] + multiset(b)[tile]
  {
  }

  lemma {:induction false} ColumnIs(col: nat, rows: nat, tile: Coordinate)
    ensures multiset(Column(col, rows))[tile] == if tile.0 == col && tile.1 < rows then 1 else 0
  {
    if rows > 0 { ColumnIs(col, rows - 1, tile); }
  }

  // dash_manager::tile_size
  function TileSize(frame: Dimension, cols: nat, rows: nat): Dimension
    requires cols > 0 && rows > 0
  {
    Dimension(frame.width / cols, frame.height / rows)
  }

  lemma {:induction false} SumOfEqual(ns: seq<nat>, n: nat)
    requires forall k :: 0 <= k < |ns| ==> ns[k] == n
    ensures Sum(ns) == |ns| * n
  {
    if ns != [] { SumOfEqual(ns[..|ns| - 1], n); }
  }

  /** When all tiles have one size, that size is recovered from the frame. */
  lemma {:induction false} TileRecovered(r: Reduction, widths: seq<nat>, heights: seq<nat>, tile: Dimension)
    requires widths != [] && heights != []
    requires multiset(Terms(r)) == multiset(Cells(|widths|, |heights|))
    requires forall k :: 0 <= k < |widths| ==> widths[k] == tile.width
    requires forall k :: 0 <= k < |heights| ==> heights[k] == tile.height
    ensures TileSize(ScaleSize(Value(r, widths, heights), |widths|, |heights|), |widths|, |heights|) == tile
  {
    FrameSize(r, widths, heights);
    SumOfEqual(widths, tile.width);
    SumOfEqual(heights, tile.height);
    DivideBack(|widths|, tile.width);
    DivideBack(|heights|, tile.height);
  }

  // ---------- Numbering ----------

  function TileIndex(cols: nat, col: nat, row: nat): nat {
    col + row * cols + 1
  }

  function TileCoordinate(cols: nat, index: nat): Coordinate
    requires cols > 0 && index > 0
  {
    ((index - 1) % cols, (index - 1) / cols)
  }

  /** Numbers and coordinates determine each other, and the numbers of a grid are 1 to its count. */
  lemma {:induction false} IndexRoundTrip(cols: nat, rows: nat, col: nat, row: nat, index: nat)
    requires cols > 0
    ensures col < cols ==> TileCoordinate(cols, TileIndex(cols, col, row)) == (col, row)
    ensures index > 0 ==> var c := TileCoordinate(cols, index); c.0 < cols && TileIndex(cols, c.0, c.1) == index
    ensures col < cols && row < rows ==> 1 <= TileIndex(cols, col, row) <= cols * rows
  {
    if col < cols { DivUnique(row * cols + col, cols, row, col); }
    if row < rows {
      MulMonotone(row + 1, rows, cols);
      Distribute(row, -1, cols);
      assert rows * cols == cols * rows;
    }
  }
}

/**
  The frame size the reader computes from the video sets it has found (network/dash.protocal.cpp),
  followed from the sources through merging and reading.
 */
module FrameScale {
  import opened Decimal
  import opened MpdMerge
  import opened MpdReader
  import opened TileGrid
  import opened Wrappers
  import opened Xml

  type VideoSets = map<MpdMerge.Coordinate, VideoSet>

  datatype Size = Size(width: int, height: int)

  // One way for transform_reduce to combine the sizes of the sets it is given.
  function Reduce(r: Reduction, sets: VideoSets): Size {
    match r
    case Initial => Size(0, 0)
    case Term(tile) => if tile in sets then Size(sets[tile].width, sets[tile].height) else Size(0, 0)
    case Combine(left, right) => Together(Reduce(left, sets), Reduce(right, sets))
  }

  function Together(a: Size, b: Size): Size {
    Size(a.width + b.width, a.height + b.height)
  }

  // The reduction takes every set of the map once, and nothing else.
  ghost predicate Covers(r: Reduction, sets: VideoSets) {
    forall tile: TileGrid.Coordinate :: multiset(Terms(r))[tile] == if tile in sets then 1 else 0
  }

  // Division of C++ by a positive number.
  function Quotient(a: int, b: int): int
    requires b > 0
  {
    if a >= 0 then a / b else -(-a / b)
  }

  lemma {:induction false} QuotientTruncates(a: int, b: int)
    requires b > 0
    ensures var q := Quotient(a, b);
            if a >= 0 then q * b <= a < q * b + b else q * b - b < a <= q * b <= 0
  {
  }

  // parse_scale_size
  function Scale(p: Parsed, r: Reduction): Size
    requires p.grid.0 > 0 && p.grid.1 > 0
  {
    var sum := Reduce(r, p.videoSets);
    Size(Quotient(sum.width, p.grid.1), Quotient(sum.height, p.grid.0))
  }

  ghost predicate InGrid(c: MpdMerge.Coordinate, cols: nat, rows: nat) {
    0 <= c.0 < cols && 0 <= c.1 < rows
  }

  // The sets fill a grid whose columns have these widths and whose rows have these heights.
  ghost predicate FillsGrid(sets: VideoSets, widths: seq<nat>, heights: seq<nat>) {
    forall c: MpdMerge.Coordinate ::
      && (c in sets <==> InGrid(c, |widths|, |heights|))
      && (c in sets ==> sets[c].width == widths[c.0] && sets[c].height == heights[c.1])
  }

  lemma {:induction false} TermIsValue(tile: TileGrid.Coordinate, sets: VideoSets, widths: seq<nat>, heights: seq<nat>)
    requires FillsGrid(sets, widths, heights)
    ensures var size := SizeAt(widths, heights, tile);
            if tile in sets then sets[tile].width == size.width && sets[tile].height == size.height
            else size == Dimension(0, 0)
  {
    assert tile in sets <==> InGrid(tile, |widths|, |heights|);
  }

  ghost predicate Agrees(r: Reduction, sets: VideoSets, widths: seq<nat>, heights: seq<nat>) {
    var v := TileGrid.Value(r, widths, heights);
    Reduce(r, sets) == Size(v.width, v.height)
  }

  lemma {:induction false} TermAgrees(tile: TileGrid.Coordinate, sets: VideoSets, widths: seq<nat>, heights: seq<nat>)
    requires FillsGrid(sets, widths, heights)
    ensures Agrees(Term(tile), sets, widths, heights)
  {
    TermIsValue(tile, sets, widths, heights);
    hide FillsGrid, SizeAt;
  }

  lemma {:induction false} CombineAgrees(left: Reduction, right: Reduction, sets: VideoSets, widths: seq<nat>, heights: seq<nat>)
    requires Agrees(left, sets, widths, heights) && Agrees(right, sets, widths, heights)
    ensures Agrees(Combine(left, right), sets, widths, heights)
  {
    hide Reduce, TileGrid.Value;
    ReduceCombine(left, right, sets);
    ValueCombine(left, right, widths, heights);
  }

  lemma {:induction false} ReduceCombine(left: Reduction, right: Reduction, sets: VideoSets)
    ensures Reduce(Combine(left, right), sets) == Together(Reduce(left, sets), Reduce(right, sets))
  {
    hide Together;
  }

  lemma {:induction false} ValueCombine(left: Reduction, right: Reduction, widths: seq<nat>, heights: seq<nat>)
    ensures TileGrid.Value(Combine(left, right), widths, heights) ==
            Add(TileGrid.Value(left, widths, heights), TileGrid.Value(right, widths, heights))
  {
    hide Add, SizeAt;
  }

  lemma {:induction false} ReduceIsValue(r: Reduction, sets: VideoSets, widths: seq<nat>, heights: seq<nat>)
    requires FillsGrid(sets, widths, heights)
    ensures Agrees(r, sets, widths, heights)
  {
    hide FillsGrid;
    match r {
      case Initial =>
      case Term(tile) => TermAgrees(tile, sets, widths, heights);
      case Combine(left, right) =>
        hide Agrees;
        ReduceIsValue(left, sets, widths, heights);
        ReduceIsValue(right, sets, widths, heights);
        CombineAgrees(left, right, sets, widths, heights);
    }
  }

  lemma {:induction false} CoversCells(r: Reduction, sets: VideoSets, widths: seq<nat>, heights: seq<nat>)
    requires FillsGrid(sets, widths, heights) && Covers(r, sets)
    ensures multiset(Terms(r)) == multiset(Cells(|widths|, |heights|))
  {
    hide FillsGrid, Covers, Terms, Cells, InGrid;
    var terms, cells := multiset(Terms(r)), multiset(Cells(|widths|, |heights|));
    forall tile: TileGrid.Coordinate ensures terms[tile] == cells[tile] { CoversCell(r, sets, widths, heights, tile); }
  }

  lemma {:induction false} CoversCell(r: Reduction, sets: VideoSets, widths: seq<nat>, heights: seq<nat>, tile: TileGrid.Coordinate)
    requires FillsGrid(sets, widths, heights) && Covers(r, sets)
    ensures multiset(Terms(r))[tile] == multiset(Cells(|widths|, |heights|))[tile]
  {
    hide Terms, Cells;
    CellFilled(sets, widths, heights, tile);
  }

  // There is such a reduction for every grid, whatever the sets: one term after the other.
  function InTurn(tiles: seq<TileGrid.Coordinate>): Reduction {
    if tiles == [] then Initial else Combine(InTurn(tiles[..|tiles| - 1]), Term(tiles[|tiles| - 1]))
  }

  lemma {:induction false} TermsInTurn(tiles: seq<TileGrid.Coordinate>)
    ensures Terms(InTurn(tiles)) == tiles
  {
    if tiles != [] { TermsInTurn(tiles[..|tiles| - 1]); }
  }

  lemma {:induction false} InTurnCovers(sets: VideoSets, widths: seq<nat>, heights: seq<nat>)
    requires FillsGrid(sets, widths, heights)
    ensures Covers(InTurn(Cells(|widths|, |heights|)), sets)
  {
    hide FillsGrid, Cells, Terms, InTurn, InGrid;
    var cells := Cells(|widths|, |heights|);
    TermsInTurn(cells);
    forall tile: TileGrid.Coordinate ensures multiset(cells)[tile] == if tile in sets then 1 else 0 {
      CellFilled(sets, widths, heights, tile);
    }
  }

  lemma {:induction false} CellFilled(sets: VideoSets, widths: seq<nat>, heights: seq<nat>, tile: TileGrid.Coordinate)
    requires FillsGrid(sets, widths, heights)
    ensures multiset(Cells(|widths|, |heights|))[tile] == if tile in sets then 1 else 0
  {
    hide Cells;
    CellsAre(|widths|, |heights|, tile);
    assert tile in sets <==> InGrid(tile, |widths|, |heights|);
  }

  /**
    When the sets found fill the grid found, with widths by column and heights by row, the frame
    is as wide as the columns together and as high as the rows together, however the reduction
    groups and orders them.
   */
  lemma {:induction false} ParsedScale(p: Parsed, r: Reduction, widths: seq<nat>, heights: seq<nat>)
    requires widths != [] && heights != [] && p.grid == (|widths|, |heights|)
    requires FillsGrid(p.videoSets, widths, heights) && Covers(r, p.videoSets)
    ensures Scale(p, r) == Size(Sum(widths), Sum(heights))
  {
    ReduceIsValue(r, p.videoSets, widths, heights);
    CoversCells(r, p.videoSets, widths, heights);
    FrameSize(r, widths, heights);
  }

  // ---------- From the sources ----------

  // The first source of a coordinate gives its tile this size.
  predicate Declares(d: Node, width: nat, height: nat)
    requires SourceOk(d)
  {
    && Attribute(SetOf(d), "maxWidth") == Some(PrintInt(width))
    && Attribute(SetOf(d), "maxHeight") == Some(PrintInt(height))
  }

  // One group of sources for each place of the grid, declaring sizes by column and by row.
  ghost predicate GroupsFill(groups: seq<Group>, widths: seq<nat>, heights: seq<nat>)
    requires GroupsOk(groups)
  {
    && (forall c :: Taken(groups, |groups|, c) <==> InGrid(c, |widths|, |heights|))
    && (forall g :: 0 <= g < |groups| ==> GroupFills(groups[g], widths, heights))
  }

  ghost predicate GroupFills(group: Group, widths: seq<nat>, heights: seq<nat>)
    requires group.docs != [] && AllOk(group.docs)
  {
    var c := group.coordinate;
    && InGrid(c, |widths|, |heights|) && IsVideo(group)
    && IsInt(widths[c.0]) && IsInt(heights[c.1])
    && Declares(group.docs[0], widths[c.0], heights[c.1])
  }

  lemma {:induction false} DeclaredSize(wcrop: int, hcrop: int, group: Group, start: int, widths: seq<nat>, heights: seq<nat>)
    requires group.docs != [] && AllOk(group.docs) && GroupFills(group, widths, heights)
    requires SourceSet(wcrop, hcrop, group, start).Some?
    ensures var s, c := SourceSet(wcrop, hcrop, group, start).value, group.coordinate;
            s.width == widths[c.0] && s.height == heights[c.1]
  {
    hide Select, Listed, ParseInt, PrintInt;
    ParsePrinted(widths[group.coordinate.0]);
    ParsePrinted(heights[group.coordinate.1]);
  }

  lemma {:induction false} SourcesFill(groups: seq<Group>, wcrop: int, hcrop: int, widths: seq<nat>, heights: seq<nat>)
    requires GroupsOk(groups)
    ensures var sets := SourceSets(groups, wcrop, hcrop, |groups|);
            GroupsFill(groups, widths, heights) && sets.Some? ==> FillsGrid(sets.value, widths, heights)
  {
    hide SourceOk, SourceSet, SourceSets, GroupFills;
    if GroupsFill(groups, widths, heights) && SourceSets(groups, wcrop, hcrop, |groups|).Some? {
      var sets := SourceSets(groups, wcrop, hcrop, |groups|).value;
      SourceSetsTaken(groups, wcrop, hcrop, |groups|);
      forall c: MpdMerge.Coordinate | Taken(groups, |groups|, c)
        ensures c in sets && InGrid(c, |widths|, |heights|) && sets[c].width == widths[c.0] && sets[c].height == heights[c.1]
      {
        var g :| 0 <= g < |groups| && groups[g].coordinate == c;
        GroupFilled(groups, wcrop, hcrop, widths, heights, g);
      }
    }
  }

  lemma {:induction false} GroupFilled(groups: seq<Group>, wcrop: int, hcrop: int, widths: seq<nat>, heights: seq<nat>, g: nat)
    requires GroupsOk(groups) && g < |groups|
    ensures var sets, c := SourceSets(groups, wcrop, hcrop, |groups|), groups[g].coordinate;
            GroupFills(groups[g], widths, heights) && sets.Some? ==>
              && InGrid(c, |widths|, |heights|) && c in sets.value
              && sets.value[c].width == widths[c.0] && sets.value[c].height == heights[c.1]
  {
    hide SourceOk, SourceSet, SourceSets, Before, IsAudio, Declares;
    if GroupFills(groups[g], widths, heights) && SourceSets(groups, wcrop, hcrop, |groups|).Some? {
      SourceSetsHold(groups, wcrop, hcrop, |groups|, g);
      DeclaredSize(wcrop, hcrop, groups[g], Before(groups, g), widths, heights);
    }
  }

  /**
    For sources that fill a grid, with widths by column and heights by row, the frame size that
    the reader of their merged document computes is the sum of the widths by the sum of the
    heights.
   */
  lemma {:induction false} MergedScale(groups: seq<Group>, title: string, r: Reduction, widths: seq<nat>, heights: seq<nat>)
    requires widths != [] && heights != [] && GroupsOk(groups)
    ensures var p := ParseMpd(Merged(groups, |widths|, |heights|, title));
            GroupsFill(groups, widths, heights) && AllReadable(groups, |widths|, |heights|) && p.Some? ==>
              && p.value.grid == (|widths|, |heights|)
              && (Covers(r, p.value.videoSets) ==> Scale(p.value, r) == Size(Sum(widths), Sum(heights)))
  {
    hide SourceOk, GroupsFill, AllReadable, ParseMpd, Merged, SourceSets, FillsGrid, Covers, Scale;
    if GroupsFill(groups, widths, heights) && AllReadable(groups, |widths|, |heights|) {
      MergeThenRead(groups, |widths|, |heights|, title);
      SourcesFill(groups, |widths|, |heights|, widths, heights);
      var p := ParseMpd(Merged(groups, |widths|, |heights|, title));
      if p.Some? && Covers(r, p.value.videoSets) { ParsedScale(p.value, r, widths, heights); }
    }
  }
}

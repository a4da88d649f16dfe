/**
  Cutting a frame into tiles (multimedia/command.cpp): the batches into which
  crop_scale_transcode splits the tiles of a grid, and the rectangles it cuts.
 */
module CropPlan {
  import opened Arithmetic
  import opened Sequences
  import opened Wrappers

  datatype Label = Label(i: nat, j: nat)

  datatype Rect = Rect(width: nat, height: nat, x: nat, y: nat)

  // One chain of the filter graph: [0:v]crop,scale[label].
  datatype Filter = Filter(crop: Rect, scaleWidth: nat, scaleHeight: nat, output: Label)

  // One run of the encoder: its filter graph and its -map arguments.
  datatype Batch = Batch(filters: seq<Filter>, maps: seq<Label>)

  datatype Plan = Plan(width: nat, height: nat, wcrop: nat, hcrop: nat, wscale: nat, hscale: nat)

  predicate Usable(p: Plan) {
    p.wscale > 0 && p.hscale > 0
  }

  function Count(p: Plan): nat {
    p.wcrop * p.hcrop
  }

  function CeilEven(n: nat): nat {
    if n % 2 != 0 then n + 1 else n
  }

  lemma {:induction false} CeilEvenMeans(n: nat, m: nat)
    ensures CeilEven(n) % 2 == 0 && n <= CeilEven(n)
    ensures m % 2 == 0 && n <= m ==> CeilEven(n) <= m
  {
  }

  function Cut(p: Plan, i: nat, j: nat): Rect
    requires i < p.wcrop && j < p.hcrop
  {
    Rect(p.width / p.wcrop, p.height / p.hcrop, Start(p.width, p.wcrop, i), Start(p.height, p.hcrop, j))
  }

  // The first pixel of the i-th of n parts of a length.
  function Start(length: nat, n: nat, i: nat): nat
    requires n > 0
  {
    length * i / n
  }

  function MakeFilter(p: Plan, i: nat, j: nat): Filter
    requires Usable(p) && i < p.wcrop && j < p.hcrop
  {
    Filter(Cut(p, i, j), CeilEven(p.width / p.wcrop / p.wscale), CeilEven(p.height / p.hcrop / p.hscale), Label(i, j))
  }

  // Without a scale factor a tile with even sides keeps its size.
  lemma {:induction false} UnscaledKeepsSize(p: Plan, i: nat, j: nat)
    requires p.wscale == 1 && p.hscale == 1 && i < p.wcrop && j < p.hcrop
    ensures var f := MakeFilter(p, i, j);
            && (f.crop.width % 2 == 0 <==> f.scaleWidth == f.crop.width)
            && (f.crop.height % 2 == 0 <==> f.scaleHeight == f.crop.height)
  {
    DivideByOne(p.width / p.wcrop);
    DivideByOne(p.height / p.hcrop);
  }

  lemma {:induction false} DivideByOne(n: nat)
    ensures n / 1 == n
  {
  }

  // A side is scaled to the even number nearest to its share, from below only if it is closer than one.
  predicate Scaled(from: nat, scale: nat, to: nat) {
    to % 2 == 0 && from - scale < to * scale <= from + scale
  }

  lemma {:induction false} ScaledBy(n: nat, scale: nat)
    requires scale > 0
    ensures Scaled(n, scale, CeilEven(n / scale))
  {
    var q := n / scale;
    FloorBounds(n, scale);
    assert (q + 1) * scale == q * scale + scale;
  }

  // No other number qualifies.
  lemma {:induction false} ScaledOnce(from: nat, scale: nat, a: nat, b: nat)
    requires Scaled(from, scale, a) && Scaled(from, scale, b)
    ensures a == b
  {
    if a != b {
      var low, high := if a < b then a else b, if a < b then b else a;
      assert (low + 2) * scale == low * scale + 2 * scale;
      MulMonotone(low + 2, high, scale);
    }
  }

  // ---------- Tiles in the order of the loops ----------

  // The tile at column i and row j, among the tiles in the order of the loops.
  lemma {:induction false} IndexInGrid(p: Plan, i: nat, j: nat)
    requires i < p.wcrop && j < p.hcrop
    ensures i * p.hcrop + j < Count(p)
    ensures LabelOf(p, i * p.hcrop + j) == Label(i, j)
  {
    MulMonotone(i + 1, p.wcrop, p.hcrop);
    assert (i + 1) * p.hcrop == i * p.hcrop + p.hcrop;
    DivUnique(i * p.hcrop + j, p.hcrop, i, j);
  }

  lemma {:induction false} TileInGrid(p: Plan, t: nat)
    requires t < Count(p)
    ensures p.hcrop > 0 && t / p.hcrop < p.wcrop && t % p.hcrop < p.hcrop
    ensures t == t / p.hcrop * p.hcrop + t % p.hcrop
  {
    if p.hcrop > 0 && t / p.hcrop >= p.wcrop { MulMonotone(p.wcrop, t / p.hcrop, p.hcrop); }
  }

  function LabelOf(p: Plan, t: nat): (r: Label)
    requires t < Count(p)
    ensures r.i < p.wcrop && r.j < p.hcrop && t == r.i * p.hcrop + r.j
  {
    TileInGrid(p, t);
    Label(t / p.hcrop, t % p.hcrop)
  }

  function FilterOf(p: Plan, t: nat): Filter
    requires Usable(p) && t < Count(p)
  {
    MakeFilter(p, LabelOf(p, t).i, LabelOf(p, t).j)
  }

  // Labels and filters of the tiles from..to.
  function Labels(p: Plan, from: nat, to: nat): (r: seq<Label>)
    requires from <= to <= Count(p)
    ensures |r| == to - from
  {
    seq(to - from, k requires 0 <= k < to - from => LabelOf(p, from + k))
  }

  function Filters(p: Plan, from: nat, to: nat): (r: seq<Filter>)
    requires Usable(p) && from <= to <= Count(p)
    ensures |r| == to - from
  {
    seq(to - from, k requires 0 <= k < to - from => FilterOf(p, from + k))
  }

  function Min(a: int, b: int): int {
    if a < b then a else b
  }

  // The first tile a batch may take, and the end of what it takes from the first n tiles.
  function First(offset: int): nat {
    if offset < 0 then 0 else offset
  }

  function Clamp(n: nat, offset: int, stride: int): (r: nat)
    ensures First(offset) <= r <= if n < First(offset) then First(offset) else n
  {
    if n <= First(offset) || offset + stride <= First(offset) then First(offset) else Min(n, offset + stride)
  }

  // ---------- One batch ----------

  lemma {:induction false} ColumnEnds(p: Plan, i: nat)
    requires i < p.wcrop
    ensures i * p.hcrop + p.hcrop == (i + 1) * p.hcrop <= Count(p)
  {
    MulMonotone(i + 1, p.wcrop, p.hcrop);
  }

  method CollectFilters(p: Plan, offset: int, stride: int) returns (filters: seq<Filter>)
    requires Usable(p) && offset <= Count(p)
    ensures filters == Filters(p, First(offset), Clamp(Count(p), offset, stride))
  {
    hide Filters, MakeFilter;
    filters := [];
    assert Filters(p, First(offset), Clamp(0, offset, stride)) == [];
    var i := 0;
    while i != p.wcrop
      invariant 0 <= i <= p.wcrop && i * p.hcrop <= Count(p)
      invariant filters == Filters(p, First(offset), Clamp(i * p.hcrop, offset, stride))
    {
      ColumnEnds(p, i);
      filters := CollectColumn(p, offset, stride, i, i * p.hcrop, filters);
      i := i + 1;
    }
  }

  method CollectColumn(p: Plan, offset: int, stride: int, i: nat, ghost base: nat, before: seq<Filter>) returns (filters: seq<Filter>)
    requires Usable(p) && offset <= Count(p) && i < p.wcrop && base == i * p.hcrop && base + p.hcrop <= Count(p)
    requires before == Filters(p, First(offset), Clamp(base, offset, stride))
    ensures filters == Filters(p, First(offset), Clamp(base + p.hcrop, offset, stride))
  {
    hide Count, MakeFilter;
    filters := before;
    var j := 0;
    while j != p.hcrop
      invariant 0 <= j <= p.hcrop
      invariant filters == Filters(p, First(offset), Clamp(base + j, offset, stride))
    {
      IndexInGrid(p, i, j);
      if !(i * p.hcrop + j < offset || i * p.hcrop + j >= offset + stride) {
        filters := filters + [MakeFilter(p, i, j)];
        assert FilterOf(p, base + j) == MakeFilter(p, i, j);
      }
      j := j + 1;
    }
  }

  method CollectMaps(p: Plan, offset: int, stride: int) returns (maps: seq<Label>)
    requires offset <= Count(p)
    ensures maps == Labels(p, First(offset), Clamp(Count(p), offset, stride))
  {
    hide Labels;
    maps := [];
    assert Labels(p, First(offset), Clamp(0, offset, stride)) == [];
    var i := 0;
    while i != p.wcrop
      invariant 0 <= i <= p.wcrop && i * p.hcrop <= Count(p)
      invariant maps == Labels(p, First(offset), Clamp(i * p.hcrop, offset, stride))
    {
      ColumnEnds(p, i);
      maps := CollectColumnMaps(p, offset, stride, i, i * p.hcrop, maps);
      i := i + 1;
    }
  }

  method CollectColumnMaps(p: Plan, offset: int, stride: int, i: nat, ghost base: nat, before: seq<Label>) returns (maps: seq<Label>)
    requires offset <= Count(p) && i < p.wcrop && base == i * p.hcrop && base + p.hcrop <= Count(p)
    requires before == Labels(p, First(offset), Clamp(base, offset, stride))
    ensures maps == Labels(p, First(offset), Clamp(base + p.hcrop, offset, stride))
  {
    hide Count;
    maps := before;
    var j := 0;
    while j != p.hcrop
      invariant 0 <= j <= p.hcrop
      invariant maps == Labels(p, First(offset), Clamp(base + j, offset, stride))
    {
      IndexInGrid(p, i, j);
      if !(i * p.hcrop + j < offset || i * p.hcrop + j >= offset + stride) {
        maps := maps + [Label(i, j)];
        assert LabelOf(p, base + j) == Label(i, j);
      }
      j := j + 1;
    }
  }

  // ---------- All batches ----------

  // The filter graph is a text from which the last separator is removed; from an empty text
  // nothing can be.
  datatype Error = PopOnEmpty

  function BatchAt(p: Plan, offset: int, stride: int): Batch
    requires Usable(p) && offset <= Count(p)
  {
    var to := Clamp(Count(p), offset, stride);
    Batch(Filters(p, First(offset), to), Labels(p, First(offset), to))
  }

  /** A batch is empty, so that the run fails, exactly when its range holds no tile. */
  lemma {:induction false} EmptyIff(p: Plan, offset: int, stride: int)
    requires Usable(p) && offset < Count(p)
    ensures BatchAt(p, offset, stride).filters == [] <==> stride <= 0 || offset + stride <= 0 || Count(p) == 0
    ensures offset >= 0 ==> (BatchAt(p, offset, stride).filters == [] <==> stride <= 0)
  {
    var batch := BatchAt(p, offset, stride);
    assert |batch.filters| == Clamp(Count(p), offset, stride) - First(offset);
  }

  function Transcode(p: Plan, offset: int, stride: int): Result<seq<Batch>, Error>
    requires Usable(p)
    decreases Count(p) - offset
  {
    if offset >= Count(p) then Ok([])
    else
      var batch := BatchAt(p, offset, stride);
      if batch.filters == [] then Err(PopOnEmpty)
      else
        EmptyIff(p, offset, stride);
        match Transcode(p, offset + stride, stride)
        case Ok(rest) => Ok([batch] + rest)
        case Err(error) => Err(error)
  }

  /** The recursion of crop_scale_transcode; each batch it returns is one run of the encoder. */
  method CropScaleTranscode(p: Plan, stride: int, offset: int) returns (r: Result<seq<Batch>, Error>)
    requires Usable(p)
    ensures r == Transcode(p, offset, stride)
    decreases Count(p) - offset
  {
    if offset >= p.wcrop * p.hcrop { return Ok([]); }
    var filters := CollectFilters(p, offset, stride);
    if filters == [] { return Err(PopOnEmpty); }
    var maps := CollectMaps(p, offset, stride);
    EmptyIff(p, offset, stride);
    var rest := CropScaleTranscode(p, stride, offset + stride);
    match rest {
      case Ok(batches) => r := Ok([Batch(filters, maps)] + batches);
      case Err(error) => r := Err(error);
    }
  }

  /**
    The whole recursion comes to its end exactly when there is nothing left to begin with, or
    the stride is positive and the first batch reaches a tile.
   */
  lemma {:induction false} TranscodeIff(p: Plan, offset: int, stride: int)
    requires Usable(p)
    ensures Transcode(p, offset, stride).Ok? <==>
            offset >= Count(p) || (stride > 0 && offset + stride > 0 && Count(p) > 0)
    decreases Count(p) - offset
  {
    if offset < Count(p) {
      EmptyIff(p, offset, stride);
      if BatchAt(p, offset, stride).filters != [] { TranscodeIff(p, offset + stride, stride); }
    }
  }

  // A stride of zero fails in the first batch of two tiles.
  lemma {:induction false} ZeroStridePops()
    ensures var p := Plan(8, 4, 2, 1, 1, 1);
            Count(p) == 2 && BatchAt(p, 0, 0) == Batch([], []) && Transcode(p, 0, 0) == Err(PopOnEmpty)
  {
    EmptyIff(Plan(8, 4, 2, 1, 1, 1), 0, 0);
  }

  function MapsOf(batches: seq<Batch>): seq<Label> {
    if batches == [] then [] else batches[0].maps + MapsOf(batches[1..])
  }

  // In each batch the outputs mapped are the outputs of the filter graph, in order, and the
  // graph is never empty.
  lemma {:induction false} LabelsAgree(p: Plan, offset: int, stride: int, b: nat)
    requires Usable(p) && Transcode(p, offset, stride).Ok? && b < |Transcode(p, offset, stride).value|
    ensures var batch := Transcode(p, offset, stride).value[b];
            && 0 < |batch.filters| == |batch.maps| <= stride
            && forall k :: 0 <= k < |batch.maps| ==> batch.filters[k].output == batch.maps[k]
    decreases Count(p) - offset
  {
    EmptyIff(p, offset, stride);
    if b > 0 { LabelsAgree(p, offset + stride, stride, b - 1); } else { BatchAgrees(p, offset, stride); }
  }

  lemma {:induction false} BatchAgrees(p: Plan, offset: int, stride: int)
    requires Usable(p) && offset <= Count(p)
    ensures var batch := BatchAt(p, offset, stride);
            && |batch.filters| == |batch.maps| && (batch.maps != [] ==> |batch.maps| <= stride)
            && forall k :: 0 <= k < |batch.maps| ==> batch.filters[k].output == batch.maps[k]
  {
    var batch := BatchAt(p, offset, stride);
    forall k | 0 <= k < |batch.maps| ensures batch.filters[k].output == batch.maps[k] {
      assert batch.filters[k] == FilterOf(p, First(offset) + k);
    }
  }

  /**
    Each filter of a batch cuts the rectangle of the very tile whose output it feeds, and scales
    its sides.
   */
  lemma {:induction false} FiltersCut(p: Plan, offset: int, stride: int, b: nat, k: nat)
    requires Usable(p) && Transcode(p, offset, stride).Ok? && b < |Transcode(p, offset, stride).value|
    requires k < |Transcode(p, offset, stride).value[b].filters|
    ensures var f := Transcode(p, offset, stride).value[b].filters[k];
            && f.output.i < p.wcrop && f.output.j < p.hcrop && f.crop == Cut(p, f.output.i, f.output.j)
            && Scaled(f.crop.width, p.wscale, f.scaleWidth) && Scaled(f.crop.height, p.hscale, f.scaleHeight)
    decreases Count(p) - offset
  {
    EmptyIff(p, offset, stride);
    if b > 0 { FiltersCut(p, offset + stride, stride, b - 1, k); } else { BatchCuts(p, offset, stride, k); }
  }

  lemma {:induction false} BatchCuts(p: Plan, offset: int, stride: int, k: nat)
    requires Usable(p) && offset <= Count(p) && k < |BatchAt(p, offset, stride).filters|
    ensures var f := BatchAt(p, offset, stride).filters[k];
            && f.output.i < p.wcrop && f.output.j < p.hcrop && f.crop == Cut(p, f.output.i, f.output.j)
            && Scaled(f.crop.width, p.wscale, f.scaleWidth) && Scaled(f.crop.height, p.hscale, f.scaleHeight)
  {
    hide Scaled, CeilEven, Clamp;
    assert BatchAt(p, offset, stride).filters[k] == FilterOf(p, First(offset) + k);
    ScaledBy(p.width / p.wcrop, p.wscale);
    ScaledBy(p.height / p.hcrop, p.hscale);
  }

  lemma {:induction false} LabelsJoin(p: Plan, a: nat, b: nat, c: nat)
    requires a <= b <= c <= Count(p)
    ensures Labels(p, a, b) + Labels(p, b, c) == Labels(p, a, c)
  {
  }

  lemma {:induction false} MapsFrom(p: Plan, offset: int, stride: int)
    requires Usable(p) && offset <= Count(p) && Transcode(p, offset, stride).Ok?
    ensures MapsOf(Transcode(p, offset, stride).value) == Labels(p, First(offset), Count(p))
    decreases Count(p) - offset
  {
    hide Labels, Filters;
    if offset < Count(p) {
      EmptyIff(p, offset, stride);
      var batches, rest := Transcode(p, offset, stride).value, Transcode(p, offset + stride, stride).value;
      assert batches == [BatchAt(p, offset, stride)] + rest && batches[1..] == rest;
      var next := Clamp(Count(p), offset, stride);
      if offset + stride <= Count(p) {
        MapsFrom(p, offset + stride, stride);
      } else {
        assert rest == [] && MapsOf(rest) == [];
        AppendNothing(Labels(p, First(offset), Count(p)));
      }
      LabelsJoin(p, First(offset), next, Count(p));
    } else {
      LabelsNone(p);
    }
  }

  lemma {:induction false} LabelsNone(p: Plan)
    ensures Labels(p, Count(p), Count(p)) == []
  {
  }

  /**
    For every positive stride, and from any start that leaves out no tile and whose first batch
    reaches one, the batches produce each tile exactly once.
   */
  lemma {:induction false} EachTileOnce(p: Plan, offset: int, stride: int, tile: Label)
    requires Usable(p) && offset <= 0 < offset + stride && tile.i < p.wcrop && tile.j < p.hcrop
    ensures Transcode(p, offset, stride).Ok?
    ensures var maps := MapsOf(Transcode(p, offset, stride).value);
            && |maps| == Count(p)
            && exists k :: 0 <= k < |maps| && maps[k] == tile && forall m :: 0 <= m < |maps| && maps[m] == tile ==> m == k
  {
    var k := tile.i * p.hcrop + tile.j;
    IndexInGrid(p, tile.i, tile.j);
    TranscodeIff(p, offset, stride);
    MapsFrom(p, offset, stride);
    LabelsOnce(p, tile, k);
  }

  lemma {:induction false} LabelsOnce(p: Plan, tile: Label, k: nat)
    requires k < Count(p) && LabelOf(p, k) == tile
    ensures var maps := Labels(p, 0, Count(p));
            maps[k] == tile && forall m :: 0 <= m < |maps| && maps[m] == tile ==> m == k
  {
    var maps := Labels(p, 0, Count(p));
    forall m | 0 <= m < |maps| && maps[m] == tile ensures m == k {
      assert maps[m] == LabelOf(p, m);
    }
  }

  // ---------- Geometry in one dimension ----------

  // Where the i-th of n parts starts, and how it relates to the part before.
  lemma {:induction false} PartBounds(length: nat, n: nat, i: nat)
    requires i < n
    ensures Start(length, n, i) + length / n <= Start(length, n, i + 1) <= Start(length, n, i) + length / n + 1
    ensures Start(length, n, i + 1) <= length
  {
    var q, r := length / n, length % n;
    var a, b := length * i / n, length * (i + 1) / n;
    assert length == q * n + r;
    FloorBounds(length * i, n);
    FloorBounds(length * (i + 1), n);
    assert length * (i + 1) == length * i + length;
    assert b * n < (a + q + 2) * n by {
      assert (a + q + 2) * n == a * n + q * n + 2 * n;
    }
    Cancel(b, a + q + 2, n);
    assert (a + q) * n < (b + 1) * n by {
      assert (a + q) * n == a * n + q * n;
      assert (b + 1) * n == b * n + n;
    }
    Cancel(a + q, b + 1, n);
    MulMonotone(i + 1, n, length);
    assert b * n < (length + 1) * n by {
      assert (length + 1) * n == length * n + n;
      assert length * (i + 1) == (i + 1) * length && n * length == length * n;
    }
    Cancel(b, length + 1, n);
  }

  lemma {:induction false} PartsOrdered(length: nat, n: nat, i: nat, k: nat)
    requires i < k <= n
    ensures Start(length, n, i) + length / n <= Start(length, n, k)
    decreases k
  {
    PartBounds(length, n, k - 1);
    if i < k - 1 { PartsOrdered(length, n, i, k - 1); }
  }

  predicate InPart(length: nat, n: nat, i: nat, x: nat) {
    i < n && Start(length, n, i) <= x < Start(length, n, i) + length / n
  }

  ghost predicate Reached(length: nat, n: nat, x: nat) {
    exists i: nat :: InPart(length, n, i, x)
  }

  ghost predicate Filled(length: nat, n: nat) {
    forall x: nat :: x < length ==> Reached(length, n, x)
  }

  lemma {:induction false} StartOfMultiple(q: nat, n: nat, i: nat)
    requires n > 0
    ensures Start(q * n, n, i) == q * i && q * n / n == q
  {
    assert q * n * i == q * i * n + 0;
    DivUnique(q * n * i, n, q * i, 0);
    DivUnique(q * n, n, q, 0);
  }

  // The last part ends at the end only when the parts divide the length; else one pixel before.
  lemma {:induction false} LastPartEnds(length: nat, n: nat)
    requires n > 0
    ensures Start(length, n, n - 1) + length / n == if length % n == 0 then length else length - 1
  {
    var q, r := length / n, length % n;
    FloorBounds(length, n);
    Distribute(n, 1, length);
    LessThanWhole(length, n);
    if r == 0 { WholeEnds(length, n, q); } else { RestEnds(length, n, q, r); }
  }

  lemma {:induction false} WholeEnds(length: nat, n: nat, q: nat)
    requires n > 0 && length == q * n && q <= length
    ensures length * (n - 1) / n == length - q
  {
    Distribute(n, 1, length);
    Distribute(length, q, n);
    DivUnique(length * (n - 1), n, length - q, 0);
  }

  lemma {:induction false} RestEnds(length: nat, n: nat, q: nat, r: nat)
    requires 0 < r < n && length == q * n + r && q + 1 <= length
    ensures length * (n - 1) / n == length - q - 1
  {
    Distribute(n, 1, length);
    Distribute(length, q + 1, n);
    Distribute(q, -1, n);
    DivUnique(length * (n - 1), n, length - q - 1, n - r);
  }

  lemma {:induction false} LessThanWhole(length: nat, n: nat)
    requires n > 0
    ensures length / n + (if length % n == 0 then 0 else 1) <= length
  {
    MulMonotone(1, n, length / n);
    FloorBounds(length, n);
  }

  // The parts fill a length exactly when they divide it.
  lemma {:induction false} FilledIff(length: nat, n: nat)
    requires n > 0
    ensures Filled(length, n) <==> length % n == 0
  {
    hide Start;
    if length % n == 0 {
      var q := length / n;
      FloorBounds(length, n);
      assert length == q * n;
      forall x: nat | x < length ensures Reached(length, n, x) {
        MultipleFilled(q, n, x);
      }
    } else {
      var last: nat := length - 1;
      forall i: nat ensures !InPart(length, n, i, last) {
        LastPartEnds(length, n);
        if i < n - 1 { PartsOrdered(length, n, i, n - 1); }
      }
      assert !Reached(length, n, last);
    }
  }

  lemma {:induction false} MultipleFilled(q: nat, n: nat, x: nat)
    requires n > 0 && x < q * n
    ensures Reached(q * n, n, x)
  {
    hide Start;
    var i := x / q;
    FloorBounds(x, q);
    StartOfMultiple(q, n, i);
    assert i * q == q * i && q * n == n * q;
    Cancel(i, n, q);
    assert InPart(q * n, n, i, x);
  }

  // ---------- Geometry of the frame ----------

  predicate InRect(r: Rect, x: nat, y: nat) {
    r.x <= x < r.x + r.width && r.y <= y < r.y + r.height
  }

  /** Every tile lies inside the frame. */
  lemma {:induction false} InsideFrame(p: Plan, i: nat, j: nat)
    requires i < p.wcrop && j < p.hcrop
    ensures var r := Cut(p, i, j);
            r.x + r.width <= p.width && r.y + r.height <= p.height
  {
    PartBounds(p.width, p.wcrop, i);
    PartBounds(p.height, p.hcrop, j);
  }

  predicate InTile(p: Plan, i: nat, j: nat, x: nat, y: nat) {
    i < p.wcrop && j < p.hcrop && InRect(Cut(p, i, j), x, y)
  }

  lemma {:induction false} InTileMeans(p: Plan, i: nat, j: nat, x: nat, y: nat)
    ensures InTile(p, i, j, x, y) <==> InPart(p.width, p.wcrop, i, x) && InPart(p.height, p.hcrop, j, y)
  {
  }

  /** No pixel belongs to two tiles. */
  lemma {:induction false} TilesDisjoint(p: Plan, i: nat, j: nat, k: nat, l: nat, x: nat, y: nat)
    requires InTile(p, i, j, x, y) && InTile(p, k, l, x, y)
    ensures i == k && j == l
  {
    hide InTile, InPart;
    InTileMeans(p, i, j, x, y);
    InTileMeans(p, k, l, x, y);
    OnePart(p.width, p.wcrop, i, k, x);
    OnePart(p.height, p.hcrop, j, l, y);
  }

  lemma {:induction false} OnePart(length: nat, n: nat, i: nat, k: nat, x: nat)
    requires InPart(length, n, i, x) && InPart(length, n, k, x)
    ensures i == k
  {
    if i < k { PartsOrdered(length, n, i, k); }
    if k < i { PartsOrdered(length, n, k, i); }
  }

  /** Neighbouring tiles are at most one pixel apart. */
  lemma {:induction false} GapsOfOne(p: Plan, i: nat, j: nat)
    requires i < p.wcrop && j < p.hcrop
    ensures var r := Cut(p, i, j);
            && (i + 1 < p.wcrop ==> 0 <= Cut(p, i + 1, j).x - (r.x + r.width) <= 1)
            && (j + 1 < p.hcrop ==> 0 <= Cut(p, i, j + 1).y - (r.y + r.height) <= 1)
  {
    PartBounds(p.width, p.wcrop, i);
    PartBounds(p.height, p.hcrop, j);
  }

  ghost predicate PixelTiled(p: Plan, x: nat, y: nat) {
    exists i: nat, j: nat :: InTile(p, i, j, x, y)
  }

  ghost predicate FrameTiled(p: Plan) {
    forall x: nat, y: nat :: x < p.width && y < p.height ==> PixelTiled(p, x, y)
  }

  lemma {:induction false} PixelTiledMeans(p: Plan, x: nat, y: nat)
    ensures PixelTiled(p, x, y) <==> Reached(p.width, p.wcrop, x) && Reached(p.height, p.hcrop, y)
  {
    hide InTile, InPart;
    if PixelTiled(p, x, y) {
      var i: nat, j: nat :| InTile(p, i, j, x, y);
      InTileMeans(p, i, j, x, y);
    }
    if Reached(p.width, p.wcrop, x) && Reached(p.height, p.hcrop, y) {
      var i: nat :| InPart(p.width, p.wcrop, i, x);
      var j: nat :| InPart(p.height, p.hcrop, j, y);
      InTileMeans(p, i, j, x, y);
    }
  }

  /** The tiles cover the frame exactly when the grid divides it, or it has no pixels. */
  lemma {:induction false} TiledIff(p: Plan)
    requires p.wcrop > 0 && p.hcrop > 0
    ensures FrameTiled(p) <==>
            p.width == 0 || p.height == 0 || (p.width % p.wcrop == 0 && p.height % p.hcrop == 0)
  {
    hide PixelTiled, Reached;
    FilledIff(p.width, p.wcrop);
    FilledIff(p.height, p.hcrop);
    forall x: nat, y: nat ensures PixelTiled(p, x, y) <==> Reached(p.width, p.wcrop, x) && Reached(p.height, p.hcrop, y) {
      PixelTiledMeans(p, x, y);
    }
    if p.width > 0 && p.height > 0 && FrameTiled(p) {
      assert PixelTiled(p, 0, 0);
      forall x: nat | x < p.width ensures Reached(p.width, p.wcrop, x) { assert PixelTiled(p, x, 0); }
      forall y: nat | y < p.height ensures Reached(p.height, p.hcrop, y) { assert PixelTiled(p, 0, y); }
    }
  }

  // Three pixels in two columns leave one out.
  lemma {:induction false} ThreeInTwo()
    ensures !FrameTiled(Plan(3, 2, 2, 1, 1, 1))
  {
    TiledIff(Plan(3, 2, 2, 1, 1, 1));
  }
}

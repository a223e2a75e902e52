/** Splitting a chart into printable pages: how many pages in which
    orientation (`calc_tiles`) and where each page's window onto the chart
    lies (`split_into_tiles`), lib/__init__.py:304-441. Lengths are exact
    reals. */
module Tiles {
  import opened Wrappers

  /** `math.ceil`. */
  function Ceil(x: real): (n: int)
    ensures n as real - 1.0 < x <= n as real
  {
    -((-x).Floor)
  }

  /** The number of windows of width `fill`, neighbours sharing `overlap`,
      that cover `content`; ZeroDivisionError when the stride is zero. */
  function TileCount(content: real, fill: real, overlap: real): (r: Result<int>)
    ensures r.Err? <==> fill == overlap
    ensures r.Err? ==> r.error == ZeroDivisionError
    ensures r.Ok? ==> (r.value - 1) as real < (content - overlap) / (fill - overlap) <= r.value as real
  {
    if fill - overlap == 0.0 then Err(ZeroDivisionError) else Ok(Ceil((content - overlap) / (fill - overlap)))
  }

  /** The page count suffices and is the smallest that does: with a
      positive stride, `n` windows cover the content and `n - 1` do not. */
  lemma TileCountMinimal(content: real, fill: real, overlap: real)
    requires fill > overlap
    ensures var n := TileCount(content, fill, overlap).value;
            && n as real * (fill - overlap) + overlap >= content
            && (n - 1) as real * (fill - overlap) + overlap < content
  {
    var stride := fill - overlap;
    var n := TileCount(content, fill, overlap).value;
    var q := (content - overlap) / stride;
    assert q * stride == content - overlap;
    assert (n - 1) as real < q <= n as real;
    MulMonotone(q, n as real, stride);
    MulStrict((n - 1) as real, q, stride);
    assert (n - 1) as real * stride < content - overlap;
  }

  lemma MulMonotone(a: real, b: real, c: real)
    requires a <= b && c > 0.0
    ensures a * c <= b * c
  {
  }

  lemma MulStrict(a: real, b: real, c: real)
    requires a < b && c > 0.0
    ensures a * c < b * c
  {
  }

  /** The tiling chosen by `calc_tiles`: the page format (possibly turned),
      the page counts, the strides between windows and the centring
      offsets. */
  datatype Tiling = Tiling(format: (real, real), tiles: (int, int), stride: (real, real), offset: (real, real))

  /** The page counts for a given orientation. */
  function Counts(content: (real, real), format: (real, real), margin: real, overlap: real): (int, int)
    requires format.0 - 2.0 * margin != overlap && format.1 - 2.0 * margin != overlap
  {
    (TileCount(content.0, format.0 - 2.0 * margin, overlap).value,
     TileCount(content.1, format.1 - 2.0 * margin, overlap).value)
  }

  /** The centring offset along one axis: `n` windows of width `fill`
      overlapping by `overlap` reach as far past the content's end as the
      first one starts before its beginning. */
  function Offset(content: real, fill: real, overlap: real, n: int): (off: real)
    ensures -off + ((n - 1) as real * (fill - overlap) + fill) == content + off
  {
    assert fill * n as real - overlap * (n - 1) as real == (n - 1) as real * (fill - overlap) + fill;
    (fill * n as real - overlap * (n - 1) as real - content) / 2.0
  }

  /** `calc_tiles`: the orientation needing fewer pages, the given one on a
      tie. */
  function CalcTiles(content: (real, real), format: (real, real), margin: real, overlap: real): (r: Result<Tiling>)
    ensures r.Err? <==> format.0 - 2.0 * margin == overlap || format.1 - 2.0 * margin == overlap
    ensures r.Err? ==> r.error == ZeroDivisionError
    ensures r.Ok? ==> var given := Counts(content, format, margin, overlap);
                      var turned := Counts(content, (format.1, format.0), margin, overlap);
                      && (given.0 * given.1 <= turned.0 * turned.1 ==> r.value.format == format && r.value.tiles == given)
                      && (given.0 * given.1 > turned.0 * turned.1 ==> r.value.format == (format.1, format.0) && r.value.tiles == turned)
                      && r.value.tiles.0 * r.value.tiles.1 <= turned.0 * turned.1
                      && r.value.tiles.0 * r.value.tiles.1 <= given.0 * given.1
    ensures r.Ok? ==> var f := r.value.format;
                      && r.value.stride == (f.0 - 2.0 * margin - overlap, f.1 - 2.0 * margin - overlap)
                      && r.value.offset == (Offset(content.0, f.0 - 2.0 * margin, overlap, r.value.tiles.0),
                                            Offset(content.1, f.1 - 2.0 * margin, overlap, r.value.tiles.1))
  {
    var fillWidthA := format.0 - 2.0 * margin;
    var fillHeightA := format.1 - 2.0 * margin;
    var xTilesA :- TileCount(content.0, fillWidthA, overlap);
    var yTilesA :- TileCount(content.1, fillHeightA, overlap);
    var fillWidthB := format.1 - 2.0 * margin;
    var fillHeightB := format.0 - 2.0 * margin;
    // the turned fills are the given ones swapped, so these cannot fail
    var xTilesB := TileCount(content.0, fillWidthB, overlap).value;
    var yTilesB := TileCount(content.1, fillHeightB, overlap).value;
    var (f, fillWidth, fillHeight, xTiles, yTiles) :=
      if xTilesA * yTilesA <= xTilesB * yTilesB then (format, fillWidthA, fillHeightA, xTilesA, yTilesA)
      else ((format.1, format.0), fillWidthB, fillHeightB, xTilesB, yTilesB);
    Ok(Tiling(f, (xTiles, yTiles), (fillWidth - overlap, fillHeight - overlap),
              (Offset(content.0, fillWidth, overlap, xTiles), Offset(content.1, fillHeight, overlap, yTiles))))
  }

  /** One axis of the windows: window `x` starts at `x * stride - offset`.
      With a positive stride the first window starts at or before the
      content, the last ends at or after it by the same margin, and
      neighbouring windows share exactly `overlap`. */
  lemma AxisCovers(content: real, fill: real, overlap: real, x: int)
    requires fill > overlap
    ensures var n := TileCount(content, fill, overlap).value;
            var stride := fill - overlap;
            var off := Offset(content, fill, overlap, n);
            && off >= 0.0
            && -off <= 0.0
            && (n - 1) as real * stride - off + fill == content + off
            && (x as real * stride - off + fill) - ((x + 1) as real * stride - off) == overlap
  {
    TileCountMinimal(content, fill, overlap);
    var n := TileCount(content, fill, overlap).value;
    var stride := fill - overlap;
    assert fill * n as real - overlap * (n - 1) as real == n as real * stride + overlap;
  }

  /** `v` lies in the stride-wide cell whose index is the floor of
      `v / stride`. */
  lemma FloorWindow(v: real, stride: real)
    requires stride > 0.0
    ensures var k := (v / stride).Floor; k as real * stride <= v < (k + 1) as real * stride
  {
    var q := v / stride;
    var k := q.Floor;
    assert q * stride == v;
    assert k as real <= q < (k + 1) as real;
    MulMonotone(k as real, q, stride);
    MulStrict(q, (k + 1) as real, stride);
    assert k as real * stride <= v;
    assert v < (k + 1) as real * stride;
  }

  /** Every point of the content lies in the window of some page: the
      window `x` returned here, of width `fill`, contains `c`. */
  lemma AxisPointCovered(content: real, fill: real, overlap: real, c: real) returns (x: int)
    requires fill > overlap >= 0.0 && content > overlap
    requires 0.0 <= c <= content
    ensures var n := TileCount(content, fill, overlap).value;
            var off := Offset(content, fill, overlap, n);
            && 0 <= x < n
            && x as real * (fill - overlap) - off <= c <= x as real * (fill - overlap) - off + fill
  {
    var n := TileCount(content, fill, overlap).value;
    var stride := fill - overlap;
    var off := Offset(content, fill, overlap, n);
    AxisCovers(content, fill, overlap, 0);
    assert n >= 1 by {
      assert (content - overlap) / stride > 0.0;
    }
    var x0 := ((c + off) / stride).Floor;
    assert x0 >= 0;
    FloorWindow(c + off, stride);
    if x0 <= n - 1 {
      x := x0;
    } else {
      x := n - 1;
      MulMonotone((n - 1) as real, x0 as real, stride);
    }
  }

  /** Content no wider than the overlap gets no page at all. */
  lemma SmallContentGetsNoTiles(content: real, fill: real, overlap: real)
    requires fill > overlap && content <= overlap
    ensures TileCount(content, fill, overlap).value <= 0
  {
    assert (content - overlap) / (fill - overlap) <= 0.0;
  }

  /** The window of one page: its place in the grid, the chart coordinates
      of its top left corner and whether it carries the guide lines for the
      overlap with its right and lower neighbour. */
  datatype Tile = Tile(x: int, y: int, originX: real, originY: real, guideRight: bool, guideBelow: bool)

  /** Page `(x, y)`: its window starts `x` strides right of and `y` strides
      below the first one, and it carries a guide line only toward a
      neighbour that exists. */
  function TileAt(t: Tiling, x: int, y: int): (tile: Tile)
    ensures tile.x == x && tile.y == y
    ensures tile.originX + t.offset.0 == x as real * t.stride.0 && tile.originY + t.offset.1 == y as real * t.stride.1
    ensures 0 <= x < t.tiles.0 ==> (tile.guideRight <==> x + 1 < t.tiles.0)
    ensures 0 <= y < t.tiles.1 ==> (tile.guideBelow <==> y + 1 < t.tiles.1)
  {
    Tile(x, y, x as real * t.stride.0 - t.offset.0, y as real * t.stride.1 - t.offset.1,
         x != t.tiles.0 - 1, y != t.tiles.1 - 1)
  }

  /** Guide lines mark exactly the pages that have a neighbour to the
      right or below, and the windows of neighbouring pages are one stride
      apart. */
  lemma TileAtFacts(t: Tiling, x: nat, y: nat)
    requires x < t.tiles.0 && y < t.tiles.1
    ensures TileAt(t, x, y).guideRight <==> x + 1 < t.tiles.0
    ensures TileAt(t, x, y).guideBelow <==> y + 1 < t.tiles.1
    ensures TileAt(t, x + 1, y).originX - TileAt(t, x, y).originX == t.stride.0
    ensures TileAt(t, x, y + 1).originY - TileAt(t, x, y).originY == t.stride.1
  {
  }

  function Count(n: int): nat {
    if n < 0 then 0 else n
  }

  /** `split_into_tiles`: the pages column by column, each column top to
      bottom. */
  method SplitIntoTiles(content: (real, real), format: (real, real), margin: real, overlap: real)
    returns (r: Result<seq<Tile>>)
    ensures r.Err? <==> CalcTiles(content, format, margin, overlap).Err?
    ensures r.Err? ==> r.error == ZeroDivisionError
    ensures r.Ok? ==> var t := CalcTiles(content, format, margin, overlap).value;
                      var nx := Count(t.tiles.0);
                      var ny := Count(t.tiles.1);
                      && |r.value| == nx * ny
                      && GridFilled(t, r.value, nx, ny)
  {
    var t :- CalcTiles(content, format, margin, overlap);
    var nx := Count(t.tiles.0);
    var ny := Count(t.tiles.1);
    var tiles: seq<Tile> := [];
    for x := 0 to nx
      invariant |tiles| == GridIndex(x, 0, ny)
      invariant GridFilled(t, tiles, x, ny)
    {
      for y := 0 to ny
        invariant |tiles| == GridIndex(x, y, ny)
        invariant GridFilled(t, tiles, x, ny)
        invariant forall y' :: 0 <= y' < y ==> tiles[GridIndex(x, y', ny)] == TileAt(t, x, y')
      {
        var before := tiles;
        tiles := tiles + [TileAt(t, x, y)];
        GridFilledExtend(t, before, tiles, x, ny);
      }
      GridNext(x, ny);
      GridFilledNext(t, tiles, x, ny);
    }
    assert GridFilled(t, tiles, nx, ny);
    assert t == CalcTiles(content, format, margin, overlap).value;
    return Ok(tiles);
  }

  /** Where page (x, y) goes in the list when each column has `ny` pages. */
  function GridIndex(x: nat, y: nat, ny: nat): nat {
    x * ny + y
  }

  /** The pages of the first `x` columns are in place. */
  predicate GridFilled(t: Tiling, tiles: seq<Tile>, x: nat, ny: nat) {
    forall x', y' :: 0 <= x' < x && 0 <= y' < ny ==>
      GridIndex(x', y', ny) < |tiles| && tiles[GridIndex(x', y', ny)] == TileAt(t, x', y')
  }

  lemma GridBelow(x': nat, y': nat, x: nat, ny: nat)
    requires x' < x && y' < ny
    ensures GridIndex(x', y', ny) < GridIndex(x, 0, ny)
  {
    assert x' * ny + ny <= x * ny by {
      MulLe(x' + 1, x, ny);
    }
  }

  lemma MulLe(a: nat, b: nat, c: nat)
    requires a <= b
    ensures a * c <= b * c
  {
  }

  lemma GridNext(x: nat, ny: nat)
    ensures GridIndex(x, ny, ny) == GridIndex(x + 1, 0, ny)
  {
  }

  lemma GridFilledExtend(t: Tiling, before: seq<Tile>, tiles: seq<Tile>, x: nat, ny: nat)
    requires GridFilled(t, before, x, ny) && |before| >= GridIndex(x, 0, ny)
    requires |tiles| > |before| && tiles[..|before|] == before
    ensures GridFilled(t, tiles, x, ny)
  {
    forall x', y' | 0 <= x' < x && 0 <= y' < ny
      ensures GridIndex(x', y', ny) < |tiles| && tiles[GridIndex(x', y', ny)] == TileAt(t, x', y')
    {
      GridBelow(x', y', x, ny);
      assert tiles[GridIndex(x', y', ny)] == tiles[..|before|][GridIndex(x', y', ny)];
    }
  }

  lemma GridFilledNext(t: Tiling, tiles: seq<Tile>, x: nat, ny: nat)
    requires GridFilled(t, tiles, x, ny) && |tiles| == GridIndex(x + 1, 0, ny)
    requires forall y' :: 0 <= y' < ny ==> tiles[GridIndex(x, y', ny)] == TileAt(t, x, y')
    ensures GridFilled(t, tiles, x + 1, ny)
  {
    forall x', y' | 0 <= x' < x + 1 && 0 <= y' < ny
      ensures GridIndex(x', y', ny) < |tiles| && tiles[GridIndex(x', y', ny)] == TileAt(t, x', y')
    {
      GridBelow(x', y', x + 1, ny);
    }
  }
}

/** Canvas planning: on-disk shape, chunk shape and the time-squeeze rule. */
module Canvas {
  import opened Tiles

  function Min(a: int, b: int): (m: int)
    ensures m <= a && m <= b && (m == a || m == b)
  {
    if a <= b then a else b
  }

  /** Python's `max` over a non-empty sequence of ints. */
  function MaxOf(s: seq<int>): (m: int)
    requires |s| > 0
    ensures forall i :: 0 <= i < |s| ==> s[i] <= m
    ensures exists i :: 0 <= i < |s| && s[i] == m
  {
    if |s| == 1 then s[0]
    else
      var rest := MaxOf(s[1..]);
      if s[0] >= rest then s[0] else rest
  }

  /** `int(tile.bot_r.x)` for every tile, in order. */
  function BotXs(tiles: seq<Tile>): (xs: seq<int>)
    ensures |xs| == |tiles|
    ensures forall i :: 0 <= i < |tiles| ==> xs[i] == Trunc(tiles[i].BotR().x)
  {
    seq(|tiles|, i requires 0 <= i < |tiles| => Trunc(tiles[i].BotR().x))
  }

  /** `int(tile.bot_r.y)` for every tile, in order. */
  function BotYs(tiles: seq<Tile>): (ys: seq<int>)
    ensures |ys| == |tiles|
    ensures forall i :: 0 <= i < |tiles| ==> ys[i] == Trunc(tiles[i].BotR().y)
  {
    seq(|tiles|, i requires 0 <= i < |tiles| => Trunc(tiles[i].BotR().y))
  }

  /**
   * `_find_shape`: the canvas reaches the furthest bottom-right corner in y and
   * x; t, c and z are the first tile's.
   */
  function FindShape(tiles: seq<Tile>): (s: Shape5)
    requires |tiles| > 0
    ensures forall i :: 0 <= i < |tiles| ==>
              Trunc(tiles[i].BotR().y) <= s.y && Trunc(tiles[i].BotR().x) <= s.x
    ensures exists i :: 0 <= i < |tiles| && Trunc(tiles[i].BotR().y) == s.y
    ensures exists i :: 0 <= i < |tiles| && Trunc(tiles[i].BotR().x) == s.x
    ensures s.t == tiles[0].shape.t && s.c == tiles[0].shape.c && s.z == tiles[0].shape.z
  {
    var xs := BotXs(tiles);
    var ys := BotYs(tiles);
    Shape5(tiles[0].shape.t, tiles[0].shape.c, tiles[0].shape.z, MaxOf(ys), MaxOf(xs))
  }

  /**
   * `_find_chunk_shape`: each chunk size is the first tile's extent on that
   * axis, clamped to the axis maximum. The clamp is against the first tile,
   * not against the canvas.
   */
  function FindChunkShape(tiles: seq<Tile>, limits: ChunkLimits): (k: Shape5)
    requires |tiles| > 0
    ensures var s := tiles[0].shape;
            && k.t <= s.t && k.t <= limits.t && (k.t == s.t || k.t == limits.t)
            && k.c <= s.c && k.c <= limits.c && (k.c == s.c || k.c == limits.c)
            && k.z <= s.z && k.z <= limits.z && (k.z == s.z || k.z == limits.z)
            && k.y <= s.y && k.y <= limits.maxXY && (k.y == s.y || k.y == limits.maxXY)
            && k.x <= s.x && k.x <= limits.maxXY && (k.x == s.x || k.x == limits.maxXY)
    ensures var s := tiles[0].shape;
            && (1 <= s.t && 1 <= limits.t ==> 1 <= k.t)
            && (1 <= s.c && 1 <= limits.c ==> 1 <= k.c)
            && (1 <= s.z && 1 <= limits.z ==> 1 <= k.z)
            && (1 <= s.y && 1 <= limits.maxXY ==> 1 <= k.y)
            && (1 <= s.x && 1 <= limits.maxXY ==> 1 <= k.x)
  {
    var s := tiles[0].shape;
    Shape5(Min(s.t, limits.t), Min(s.c, limits.c), Min(s.z, limits.z),
           Min(s.y, limits.maxXY), Min(s.x, limits.maxXY))
  }

  /** The full on-disk axis order. */
  const AllAxes: seq<string> := ["t", "c", "z", "y", "x"]

  /** The extent a shape gives the named axis. */
  function Extent(s: Shape5, axis: string): int {
    if axis == "t" then s.t
    else if axis == "c" then s.c
    else if axis == "z" then s.z
    else if axis == "y" then s.y
    else if axis == "x" then s.x
    else 0
  }

  function ToSeq(s: Shape5): seq<int> {
    [s.t, s.c, s.z, s.y, s.x]
  }

  /** Position `j` of a shape tuple holds the extent of the axis named at position `j`. */
  lemma AxisLookup(s: Shape5, j: nat)
    requires j < 5
    ensures ToSeq(s)[j] == Extent(s, AllAxes[j])
  {
    assert "t" != "c" && "t" != "z" && "t" != "y" && "t" != "x";
    assert "c" != "z" && "c" != "y" && "c" != "x";
    assert "z" != "y" && "z" != "x" && "y" != "x";
  }

  /** What the container is created with: shape, chunking and axis order. */
  datatype CanvasPlan = CanvasPlan(shape: seq<int>, chunks: seq<int>, axes: seq<string>, squeezed: bool)

  /**
   * The planning steps of `write_tiled_image`: find shape and chunking, then
   * drop the time axis from all three when the canvas has at most one time point.
   */
  function PlanCanvas(tiles: seq<Tile>, limits: ChunkLimits): (p: CanvasPlan)
    requires |tiles| > 0
    ensures p.squeezed <==> FindShape(tiles).t <= 1
    ensures |p.shape| == |p.chunks| == |p.axes|
    ensures p.squeezed ==> p.axes == ["c", "z", "y", "x"]
    ensures !p.squeezed ==> p.axes == ["t", "c", "z", "y", "x"]
    ensures p.squeezed ==> p.shape == ToSeq(FindShape(tiles))[1..] && p.chunks == ToSeq(FindChunkShape(tiles, limits))[1..]
    ensures !p.squeezed ==> p.shape == ToSeq(FindShape(tiles)) && p.chunks == ToSeq(FindChunkShape(tiles, limits))
  {
    var shape := FindShape(tiles);
    var chunks := FindChunkShape(tiles, limits);
    var squeeze := !(shape.t > 1);
    if squeeze then CanvasPlan(ToSeq(shape)[1..], ToSeq(chunks)[1..], AllAxes[1..], true)
    else CanvasPlan(ToSeq(shape), ToSeq(chunks), AllAxes, false)
  }

  /**
   * Whether or not the time axis was squeezed, each on-disk dimension carries
   * the canvas extent and chunk size of the axis it is labelled with, and the
   * last three axes are always z, y, x.
   */
  lemma PlanFollowsAxes(tiles: seq<Tile>, limits: ChunkLimits)
    requires |tiles| > 0
    ensures var p := PlanCanvas(tiles, limits);
            && p.axes[|p.axes| - 3..] == ["z", "y", "x"]
            && (forall j :: 0 <= j < |p.axes| ==>
                  p.shape[j] == Extent(FindShape(tiles), p.axes[j]) &&
                  p.chunks[j] == Extent(FindChunkShape(tiles, limits), p.axes[j]))
  {
    var p := PlanCanvas(tiles, limits);
    var off := if p.squeezed then 1 else 0;
    assert p.axes == AllAxes[off..];
    forall j | 0 <= j < |p.axes|
      ensures p.shape[j] == Extent(FindShape(tiles), p.axes[j])
      ensures p.chunks[j] == Extent(FindChunkShape(tiles, limits), p.axes[j])
    {
      AxisLookup(FindShape(tiles), j + off);
      AxisLookup(FindChunkShape(tiles, limits), j + off);
    }
  }
}

/** The tile and tiled-image data model the writer and the task tools work on. */
module Tiles {
  import opened Wrappers

  /** A placement in pixel units; coordinates may be fractional after stitching. */
  datatype Point = Point(x: real, y: real, z: real) {
    function Plus(other: Point): Point {
      Point(x + other.x, y + other.y, z + other.z)
    }
  }

  /** Python's `int(v)` on a float: truncation toward zero. */
  function Trunc(v: real): (n: int)
    ensures 0.0 <= v ==> 0 <= n && n as real <= v < n as real + 1.0
    ensures v < 0.0 ==> n <= 0 && n as real - 1.0 < v <= n as real
  {
    if 0.0 <= v then v.Floor else -((-v).Floor)
  }

  /** An extent per axis, in the on-disk axis order (t, c, z, y, x). */
  datatype Shape5 = Shape5(t: int, c: int, z: int, y: int, x: int)

  /** The pixel data of one (c, z, y, x) sub-array, flattened. */
  type Plane = seq<int>

  /**
   * One tile: placement (top-left corner and diagonal, bottom-right derived),
   * its own array shape and element type, origin metadata, and its payload as
   * the frames along the leading time axis (what `tile.load()` returns).
   */
  datatype Tile = Tile(
    topL: Point,
    diag: Point,
    shape: Shape5,
    dtype: string,
    origin: map<string, string>,
    frames: seq<Plane>)
  {
    function BotR(): Point {
      topL.Plus(diag)
    }
  }

  /** Physical size of one pixel per axis, in micrometres. */
  datatype PixelSize = PixelSize(x: real, y: real, z: real)

  /** Destination path strategy: a plate well position, or a plain name. */
  datatype PathBuilder =
    | Plate(row: string, column: int, acquisitionId: int, platePath: string)
    | Flat(name: string)

  /**
   * A container of tiles destined for one output image. `path` is the
   * destination path the path builder derives.
   */
  datatype TiledImage = TiledImage(
    tiles: seq<Tile>,
    pathBuilder: PathBuilder,
    path: string,
    attributes: Option<map<string, string>>,
    pixelSize: Option<PixelSize>,
    channelNames: seq<string>)

  /** Per-axis maxima for chunk sizes. */
  datatype ChunkLimits = ChunkLimits(maxXY: int, z: int, c: int, t: int)

  /** The keyword defaults of `_find_chunk_shape`. */
  const DefaultLimits := ChunkLimits(4096, 1, 1, 1)

  /** `Path(a) / b`, rendered as a string. */
  function JoinPath(dir: string, name: string): (p: string)
    ensures |p| == |dir| + 1 + |name|
    ensures p[..|dir|] == dir && p[|dir|] == '/' && p[|dir| + 1..] == name
  {
    dir + "/" + name
  }
}

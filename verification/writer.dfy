/**
 * `write_tiled_image`: precondition checks, canvas planning, container
 * creation, the well ROI and the per-tile write loop. Storage is an effect
 * log; the container library is reduced to the effects it is asked to perform.
 */
module Writer {
  import opened Wrappers
  import opened Decimal
  import opened Tiles
  import opened Canvas

  /** A region in physical units (micrometres). */
  datatype WorldRoi = WorldRoi(
    x: real, y: real, z: real,
    xLength: real, yLength: real, zLength: real,
    unit: string,
    infos: map<string, string>)

  /**
   * A region in pixel units. The library converts it to physical units with
   * the pixel size before use; that conversion is not part of this model.
   */
  datatype RasterRoi = RasterRoi(
    x: int, y: int, z: int,
    xLength: int, yLength: int, zLength: int,
    infos: map<string, string>)

  /** The array handed to the container for one tile: all frames, or frame 0 alone. */
  datatype Slab = Stack(frames: seq<Plane>) | Single(frame: Plane)

  /** One call the writer makes on the file system or the container library, in call order. */
  datatype Effect =
    | MakeDirs(path: string)
    | CreateImage(
        store: string, shape: seq<int>, axes: seq<string>, chunks: seq<int>,
        dtype: string, pixelSize: PixelSize, channelLabels: seq<string>, channelWavelengths: seq<string>,
        overwrite: bool)
    | OpenImage(store: string)
    | NewTable(name: string)
    | GetImage
    | SetWellRois(table: string, wellRois: seq<WorldRoi>)
    | ConsolidateTable(name: string)
    | WriteRegion(data: Slab, roi: RasterRoi)
    | BuildPyramid(order: nat)
    | UpdateWindow(startPercentile: real, endPercentile: real)
    | SetFovRois(fovTable: string, fovRois: seq<RasterRoi>)

  datatype WriteError =
    | NoTiles
    | TileCountChanged(before: nat, after: nat)
    | NoPixelSize
    | AlreadyExists(url: string)
    | EmptyTimeAxis(tile: nat)

  /** The writer's return value: the image URL and the library's two flags. */
  datatype Written = Written(url: string, is3d: bool, isTimeSeries: bool)

  /** Everything the writer did, in order, and how it ended. */
  datatype WriteOutcome = WriteOutcome(effects: seq<Effect>, result: Result<Written, WriteError>)

  const WellTable := "well_ROI_table"
  const FovTable := "FOV_ROI_table"

  /** `f"FOV_{i}"` */
  function FovName(i: nat): (s: string)
    ensures |s| > 4 && s[..4] == "FOV_" && AllDigits(s[4..]) && ParseDigits(s[4..]) == i
    ensures s[4] == '0' ==> |s| == 5
  {
    ParseNatToString(i);
    assert ("FOV_" + NatToString(i))[4..] == NatToString(i);
    "FOV_" + NatToString(i)
  }

  /** A pixel count times a pixel size: a length in micrometres. */
  function Scale(count: int, size: real): real {
    count as real * size
  }

  /**
   * The ROI spanning the whole canvas: origin 0, length per axis the canvas
   * extent times the pixel size, read from the last three on-disk dimensions.
   */
  function WellRoi(plan: CanvasPlan, ps: PixelSize): (w: WorldRoi)
    requires |plan.shape| >= 3
    ensures w.x == 0.0 && w.y == 0.0 && w.z == 0.0
    ensures w.infos == map["FieldIndex" := "Well"]
  {
    var n := |plan.shape|;
    var sz, sy, sx := plan.shape[n - 3], plan.shape[n - 2], plan.shape[n - 1];
    WorldRoi(0.0, 0.0, 0.0, Scale(sx, ps.x), Scale(sy, ps.y), Scale(sz, ps.z),
             "micrometer", map["FieldIndex" := "Well"])
  }

  /**
   * The ROI of tile `i`: origin at the truncated top-left corner, lengths the
   * truncated diagonal, tagged with its index; the tile's origin metadata is
   * merged after the tag, so an origin key of the same name wins.
   */
  function FovRoi(tile: Tile, i: nat): (roi: RasterRoi)
    ensures roi.x == Trunc(tile.topL.x) && roi.y == Trunc(tile.topL.y) && roi.z == Trunc(tile.topL.z)
    ensures roi.xLength == Trunc(tile.diag.x) && roi.yLength == Trunc(tile.diag.y)
    ensures roi.zLength == Trunc(tile.diag.z)
    ensures roi.infos.Keys == {"FieldIndex"} + tile.origin.Keys
    ensures forall k :: k in tile.origin ==> roi.infos[k] == tile.origin[k]
    ensures "FieldIndex" !in tile.origin ==> roi.infos["FieldIndex"] == FovName(i)
  {
    RasterRoi(Trunc(tile.topL.x), Trunc(tile.topL.y), Trunc(tile.topL.z),
              Trunc(tile.diag.x), Trunc(tile.diag.y), Trunc(tile.diag.z),
              map["FieldIndex" := FovName(i)] + tile.origin)
  }

  /** Indexing frame 0 of a payload with an empty time axis raises; nothing else does. */
  predicate Writable(tile: Tile, squeeze: bool) {
    !squeeze || |tile.frames| > 0
  }

  /** `tile_data[0] if squeeze_t else tile_data` */
  function SlabOf(tile: Tile, squeeze: bool): (s: Slab)
    requires Writable(tile, squeeze)
    ensures squeeze <==> s.Single?
    ensures squeeze ==> s.frame == tile.frames[0]
    ensures !squeeze ==> s.frames == tile.frames
  {
    if squeeze then Single(tile.frames[0]) else Stack(tile.frames)
  }

  /** The state of the tile loop after its first `n` iterations. */
  datatype TilePass = TilePass(effects: seq<Effect>, rois: seq<RasterRoi>, failedAt: Option<nat>)

  function WriteTiles(tiles: seq<Tile>, squeeze: bool, n: nat): (r: TilePass)
    requires n <= |tiles|
    ensures r.failedAt.None? <==> forall j :: 0 <= j < n ==> Writable(tiles[j], squeeze)
    ensures r.failedAt.Some? ==>
              && r.failedAt.value < n
              && !Writable(tiles[r.failedAt.value], squeeze)
              && |r.effects| == r.failedAt.value
    ensures r.failedAt.None? ==> |r.effects| == |r.rois| == n
    ensures |r.effects| <= |r.rois| && |r.effects| <= n
    ensures forall j :: 0 <= j < |r.effects| ==>
              && Writable(tiles[j], squeeze)
              && r.rois[j] == FovRoi(tiles[j], j)
              && r.effects[j] == WriteRegion(SlabOf(tiles[j], squeeze), r.rois[j])
  {
    if n == 0 then TilePass([], [], None)
    else
      var prev := WriteTiles(tiles, squeeze, n - 1);
      if prev.failedAt.Some? then prev
      else
        var roi := FovRoi(tiles[n - 1], n - 1);
        if !Writable(tiles[n - 1], squeeze) then TilePass(prev.effects, prev.rois + [roi], Some(n - 1))
        else
          var next := TilePass(prev.effects + [WriteRegion(SlabOf(tiles[n - 1], squeeze), roi)],
                               prev.rois + [roi], None);
          WritesExtend(tiles, squeeze, n, prev, next);
          next
  }

  /** Appending the write of tile `n - 1` to a pass over the first `n - 1` tiles. */
  lemma WritesExtend(tiles: seq<Tile>, squeeze: bool, n: nat, prev: TilePass, next: TilePass)
    requires 0 < n <= |tiles| && Writable(tiles[n - 1], squeeze)
    requires |prev.effects| == |prev.rois| == n - 1
    requires forall j :: 0 <= j < |prev.effects| ==>
               && Writable(tiles[j], squeeze)
               && prev.rois[j] == FovRoi(tiles[j], j)
               && prev.effects[j] == WriteRegion(SlabOf(tiles[j], squeeze), prev.rois[j])
    requires next.effects == prev.effects + [WriteRegion(SlabOf(tiles[n - 1], squeeze), FovRoi(tiles[n - 1], n - 1))]
    requires next.rois == prev.rois + [FovRoi(tiles[n - 1], n - 1)]
    ensures |next.effects| == |next.rois| == n
    ensures forall j :: 0 <= j < |next.effects| ==>
              && Writable(tiles[j], squeeze)
              && next.rois[j] == FovRoi(tiles[j], j)
              && next.effects[j] == WriteRegion(SlabOf(tiles[j], squeeze), next.rois[j])
  {
    forall j | 0 <= j < |next.effects|
      ensures && Writable(tiles[j], squeeze)
              && next.rois[j] == FovRoi(tiles[j], j)
              && next.effects[j] == WriteRegion(SlabOf(tiles[j], squeeze), next.rois[j])
    {
      if j < n - 1 {
        assert next.effects[j] == prev.effects[j] && next.rois[j] == prev.rois[j];
      } else {
        assert next.rois[j] == FovRoi(tiles[n - 1], n - 1);
      }
    }
  }

  /**
   * The effects up to the tile loop: make the destination directory, create
   * the container as planned, open it, create, fill and consolidate the well
   * ROI table, fetch the image and create the FOV ROI table.
   */
  function Created(zarrDir: string, img: TiledImage, tiles: seq<Tile>, plan: CanvasPlan, overwrite: bool): seq<Effect>
    requires |tiles| > 0 && img.pixelSize.Some? && |plan.shape| >= 3
  {
    [MakeDirs(zarrDir),
     // `_find_dtype`: the first tile's dtype
     CreateImage(JoinPath(zarrDir, img.path), plan.shape, plan.axes, plan.chunks, tiles[0].dtype,
                 img.pixelSize.value, img.channelNames, img.channelNames, overwrite),
     OpenImage(JoinPath(zarrDir, img.path)),
     NewTable(WellTable),
     SetWellRois(WellTable, [WellRoi(plan, img.pixelSize.value)]),
     ConsolidateTable(WellTable),
     GetImage,
     NewTable(FovTable)]
  }

  /** The effects after the tile loop: pyramid, display window, FOV ROI table. */
  function Finished(rois: seq<RasterRoi>): seq<Effect> {
    [BuildPyramid(1), UpdateWindow(1.0, 99.9), SetFovRois(FovTable, rois), ConsolidateTable(FovTable)]
  }

  /**
   * `write_tiled_image`. The chunk maxima are explicit parameters here: the
   * writer in `omezarr_image_writers.py` always uses the defaults (`DefaultLimits`) although the
   * compute task passes the configured maxima to it. `destinationExists` is
   * what the store holds at `zarrDir/path` when the container is created.
   */
  function WriteTiledImage(
    zarrDir: string, img: TiledImage, pipe: seq<Tile> -> seq<Tile>,
    limits: ChunkLimits, overwrite: bool, destinationExists: bool): (r: WriteOutcome)
    ensures |img.tiles| == 0 ==> r == WriteOutcome([], Failure(NoTiles))
    ensures |img.tiles| > 0 && |pipe(img.tiles)| != |img.tiles| ==>
              r == WriteOutcome([], Failure(TileCountChanged(|img.tiles|, |pipe(img.tiles)|)))
    ensures |img.tiles| > 0 && |pipe(img.tiles)| == |img.tiles| && img.pixelSize.None? ==>
              r == WriteOutcome([], Failure(NoPixelSize))
    ensures img.pixelSize.None? ==> r.effects == [] && r.result.Failure?
    ensures r.result.Success? ==>
              && |img.tiles| > 0 && |pipe(img.tiles)| == |img.tiles| && img.pixelSize.Some?
              && (!destinationExists || overwrite)
              && r.result.value.url == JoinPath(zarrDir, img.path)
  {
    if |img.tiles| == 0 then WriteOutcome([], Failure(NoTiles))
    else
      var tiles := pipe(img.tiles);
      if |tiles| != |img.tiles| then
        WriteOutcome([], Failure(TileCountChanged(|img.tiles|, |tiles|)))
      else
        var plan := PlanCanvas(tiles, limits);
        if img.pixelSize.None? then WriteOutcome([], Failure(NoPixelSize))
        else
          var url := JoinPath(zarrDir, img.path);
          if destinationExists && !overwrite then
            WriteOutcome([MakeDirs(zarrDir)], Failure(AlreadyExists(url)))
          else
            var pass := WriteTiles(tiles, plan.squeezed, |tiles|);
            if pass.failedAt.Some? then
              WriteOutcome(Created(zarrDir, img, tiles, plan, overwrite) + pass.effects,
                           Failure(EmptyTimeAxis(pass.failedAt.value)))
            else
              var shape := FindShape(tiles);
              WriteOutcome(Created(zarrDir, img, tiles, plan, overwrite) + pass.effects + Finished(pass.rois),
                           Success(Written(url, shape.z > 1, shape.t > 1)))
  }

  /** The tiles after the stitching pipe. */
  function Stitched(img: TiledImage, pipe: seq<Tile> -> seq<Tile>): seq<Tile> {
    pipe(img.tiles)
  }

  /**
   * The conditions under which `write_tiled_image` completes, stated on the
   * stitched tiles `st`: there are tiles, stitching kept their number, the
   * pixel size is set, the destination may be written, and every tile can be
   * sliced as the time squeeze demands.
   */
  predicate Completes(img: TiledImage, st: seq<Tile>, overwrite: bool, destinationExists: bool) {
    && |img.tiles| > 0 && |st| == |img.tiles| && img.pixelSize.Some?
    && (!destinationExists || overwrite)
    && forall i :: 0 <= i < |st| ==> Writable(st[i], st[0].shape.t <= 1)
  }

  /** The effect log of a successful write, in its three parts. */
  lemma SuccessfulWrite(
    zarrDir: string, img: TiledImage, pipe: seq<Tile> -> seq<Tile>,
    limits: ChunkLimits, overwrite: bool, destinationExists: bool)
    requires Completes(img, Stitched(img, pipe), overwrite, destinationExists)
    ensures var r := WriteTiledImage(zarrDir, img, pipe, limits, overwrite, destinationExists);
            var st := Stitched(img, pipe);
            && |img.tiles| > 0 && |st| == |img.tiles| && img.pixelSize.Some?
            && var plan := PlanCanvas(st, limits);
               var pass := WriteTiles(st, plan.squeezed, |st|);
               && pass.failedAt.None?
               && r.result.Success?
               && r.effects == Created(zarrDir, img, st, plan, overwrite) + pass.effects + Finished(pass.rois)
               && r.result.value == Written(JoinPath(zarrDir, img.path), FindShape(st).z > 1, FindShape(st).t > 1)
  {
  }

  /**
   * The writer succeeds exactly when the tile list is non-empty, stitching
   * keeps the tile count, the pixel size is set, the destination may be
   * written, and no tile needs frame 0 of an empty time axis.
   */
  lemma WriteSucceedsIff(
    zarrDir: string, img: TiledImage, pipe: seq<Tile> -> seq<Tile>,
    limits: ChunkLimits, overwrite: bool, destinationExists: bool)
    ensures WriteTiledImage(zarrDir, img, pipe, limits, overwrite, destinationExists).result.Success?
            <==> Completes(img, Stitched(img, pipe), overwrite, destinationExists)
  {
  }

  /**
   * With an existing destination and `overwrite` unset, only the destination
   * directory is made; the container is not created and nothing is written.
   */
  lemma ExistingDestinationRejected(
    zarrDir: string, img: TiledImage, pipe: seq<Tile> -> seq<Tile>, limits: ChunkLimits)
    requires |img.tiles| > 0 && |Stitched(img, pipe)| == |img.tiles| && img.pixelSize.Some?
    ensures WriteTiledImage(zarrDir, img, pipe, limits, false, true)
            == WriteOutcome([MakeDirs(zarrDir)], Failure(AlreadyExists(JoinPath(zarrDir, img.path))))
  {
  }

  /**
   * A successful write creates the container once, right after making the
   * destination directory, with the planned shape, axes and chunks, the first
   * stitched tile's dtype and the image's pixel size; the time axis is on disk
   * exactly when the canvas has more than one time point, and that is when
   * the image is reported as a time series.
   */
  lemma ContainerMatchesPlan(
    zarrDir: string, img: TiledImage, pipe: seq<Tile> -> seq<Tile>,
    limits: ChunkLimits, overwrite: bool, destinationExists: bool)
    requires Completes(img, Stitched(img, pipe), overwrite, destinationExists)
    ensures var r := WriteTiledImage(zarrDir, img, pipe, limits, overwrite, destinationExists);
            var st := Stitched(img, pipe);
            && |st| > 0 && img.pixelSize.Some?
            && var plan := PlanCanvas(st, limits);
               && |r.effects| >= 2
               && r.effects[0] == MakeDirs(zarrDir)
               && r.effects[1] == CreateImage(JoinPath(zarrDir, img.path), plan.shape, plan.axes,
                                              plan.chunks, st[0].dtype, img.pixelSize.value,
                                              img.channelNames, img.channelNames, overwrite)
               && (forall i :: 2 <= i < |r.effects| ==> !r.effects[i].CreateImage?)
               && ("t" in plan.axes <==> FindShape(st).t > 1)
               && r.result.Success?
               && (r.result.value.isTimeSeries <==> "t" in plan.axes)
               && (r.result.value.is3d <==> st[0].shape.z > 1)
  {
    SuccessfulWrite(zarrDir, img, pipe, limits, overwrite, destinationExists);
    var st := Stitched(img, pipe);
    var plan := PlanCanvas(st, limits);
    CreatedOnce(zarrDir, img, st, plan, overwrite);
    TimeAxisOnDisk(st, limits);
  }

  /** The time axis is on disk exactly when the canvas has more than one time point. */
  lemma TimeAxisOnDisk(tiles: seq<Tile>, limits: ChunkLimits)
    requires |tiles| > 0
    ensures "t" in PlanCanvas(tiles, limits).axes <==> FindShape(tiles).t > 1
  {
    var p := PlanCanvas(tiles, limits);
    if p.squeezed {
      assert p.axes == ["c", "z", "y", "x"];
    } else {
      assert p.axes[0] == "t";
    }
  }

  /** The log of a completed tile loop creates the container once, second. */
  lemma CreatedOnce(zarrDir: string, img: TiledImage, st: seq<Tile>, plan: CanvasPlan, overwrite: bool)
    requires |st| > 0 && img.pixelSize.Some? && |plan.shape| >= 3
    requires WriteTiles(st, plan.squeezed, |st|).failedAt.None?
    ensures var pass := WriteTiles(st, plan.squeezed, |st|);
            var e := Created(zarrDir, img, st, plan, overwrite) + pass.effects + Finished(pass.rois);
            && |e| >= 2
            && e[0] == MakeDirs(zarrDir)
            && e[1] == CreateImage(JoinPath(zarrDir, img.path), plan.shape, plan.axes, plan.chunks,
                                   st[0].dtype, img.pixelSize.value, img.channelNames, img.channelNames,
                                   overwrite)
            && forall i :: 2 <= i < |e| ==> !e[i].CreateImage?
  {
    var pass := WriteTiles(st, plan.squeezed, |st|);
    PassWritesTiles(st, plan.squeezed);
    FinishCreatesNothing(pass.rois);
    SetUpCreatesOnce(zarrDir, img, st, plan, overwrite);
    NoLaterCreate(Created(zarrDir, img, st, plan, overwrite), pass.effects, Finished(pass.rois));
  }

  /** None of the closing effects creates the container. */
  lemma FinishCreatesNothing(rois: seq<RasterRoi>)
    ensures forall i :: 0 <= i < |Finished(rois)| ==> !Finished(rois)[i].CreateImage?
  {
    var f := Finished(rois);
    forall i | 0 <= i < |f|
      ensures !f[i].CreateImage?
    {
      assert i in {0, 1, 2, 3};
    }
  }

  /** Of the set-up effects only the second creates the container. */
  lemma SetUpCreatesOnce(zarrDir: string, img: TiledImage, tiles: seq<Tile>, plan: CanvasPlan, overwrite: bool)
    requires |tiles| > 0 && img.pixelSize.Some? && |plan.shape| >= 3
    ensures var c := Created(zarrDir, img, tiles, plan, overwrite);
            && |c| == 8
            && c[0] == MakeDirs(zarrDir)
            && c[1] == CreateImage(JoinPath(zarrDir, img.path), plan.shape, plan.axes, plan.chunks,
                                   tiles[0].dtype, img.pixelSize.value, img.channelNames, img.channelNames,
                                   overwrite)
            && forall i :: 2 <= i < |c| ==> !c[i].CreateImage?
  {
    var c := Created(zarrDir, img, tiles, plan, overwrite);
    forall i | 2 <= i < |c|
      ensures !c[i].CreateImage?
    {
      assert i in {2, 3, 4, 5, 6, 7};
    }
  }

  /** Only the first two set-up effects can create the container. */
  lemma NoLaterCreate(pre: seq<Effect>, mid: seq<Effect>, post: seq<Effect>)
    requires |pre| >= 2 && forall i :: 2 <= i < |pre| ==> !pre[i].CreateImage?
    requires forall i :: 0 <= i < |mid| ==> mid[i].WriteRegion?
    requires forall i :: 0 <= i < |post| ==> !post[i].CreateImage?
    ensures var all := pre + mid + post;
            && |all| >= 2 && all[0] == pre[0] && all[1] == pre[1]
            && forall i :: 2 <= i < |all| ==> !all[i].CreateImage?
  {
    var all := pre + mid + post;
    forall i | 2 <= i < |all|
      ensures !all[i].CreateImage?
    {
      if i < |pre| {
        assert all[i] == pre[i];
      } else if i < |pre| + |mid| {
        assert all[i] == mid[i - |pre|];
      } else {
        assert all[i] == post[i - |pre| - |mid|];
      }
    }
  }

  /** An effect of the set-up part keeps its index in the whole log. */
  lemma InPrefix(effects: seq<Effect>, pre: seq<Effect>, mid: seq<Effect>, post: seq<Effect>, i: nat)
    requires effects == pre + mid + post && i < |pre|
    ensures |effects| == |pre| + |mid| + |post| && effects[i] == pre[i]
  {
  }

  /** The last three on-disk axes are z, y, x whether or not time was squeezed. */
  lemma TrailingAxes(tiles: seq<Tile>, limits: ChunkLimits)
    requires |tiles| > 0
    ensures var p := PlanCanvas(tiles, limits);
            var n := |p.axes|;
            && n >= 3
            && p.shape[n - 3] == FindShape(tiles).z
            && p.shape[n - 2] == FindShape(tiles).y
            && p.shape[n - 1] == FindShape(tiles).x
  {
    var p := PlanCanvas(tiles, limits);
    PlanFollowsAxes(tiles, limits);
    var n := |p.axes|;
    assert p.axes[n - 3..][0] == p.axes[n - 3];
    assert p.axes[n - 3..][1] == p.axes[n - 2];
    assert p.axes[n - 3..][2] == p.axes[n - 1];
  }

  /** The well ROI of a plan reads the canvas extents of z, y and x. */
  lemma WellRoiOfPlan(tiles: seq<Tile>, limits: ChunkLimits, ps: PixelSize)
    requires |tiles| > 0
    ensures var canvas := FindShape(tiles);
            WellRoi(PlanCanvas(tiles, limits), ps) == WorldRoi(
              0.0, 0.0, 0.0,
              Scale(canvas.x, ps.x), Scale(canvas.y, ps.y), Scale(canvas.z, ps.z),
              "micrometer", map["FieldIndex" := "Well"])
  {
    var p := PlanCanvas(tiles, limits);
    var canvas := FindShape(tiles);
    TrailingAxes(tiles, limits);
    var n := |p.shape|;
    var sz, sy, sx := p.shape[n - 3], p.shape[n - 2], p.shape[n - 1];
    assert sz == canvas.z && sy == canvas.y && sx == canvas.x;
    assert WellRoi(p, ps) == WorldRoi(0.0, 0.0, 0.0, Scale(sx, ps.x), Scale(sy, ps.y), Scale(sz, ps.z),
                                      "micrometer", map["FieldIndex" := "Well"]);
  }

  /**
   * After creating the container a successful write opens it, creates the
   * well table, stores the well ROI, consolidates the table and fetches the
   * image. The well ROI spans the canvas: origin 0, each length the canvas
   * extent on that axis times the pixel size, tagged "Well".
   */
  lemma WellRoiSpansCanvas(
    zarrDir: string, img: TiledImage, pipe: seq<Tile> -> seq<Tile>,
    limits: ChunkLimits, overwrite: bool, destinationExists: bool)
    requires Completes(img, Stitched(img, pipe), overwrite, destinationExists)
    ensures var r := WriteTiledImage(zarrDir, img, pipe, limits, overwrite, destinationExists);
            var st := Stitched(img, pipe);
            && |st| > 0 && img.pixelSize.Some?
            && var canvas := FindShape(st);
               var ps := img.pixelSize.value;
               && |r.effects| >= 7
               && r.effects[2] == OpenImage(JoinPath(zarrDir, img.path))
               && r.effects[3] == NewTable(WellTable)
               && r.effects[5] == ConsolidateTable(WellTable)
               && r.effects[6] == GetImage
               && r.effects[4] == SetWellRois(WellTable, [WorldRoi(
                    0.0, 0.0, 0.0,
                    Scale(canvas.x, ps.x), Scale(canvas.y, ps.y), Scale(canvas.z, ps.z),
                    "micrometer", map["FieldIndex" := "Well"])])
  {
    SuccessfulWrite(zarrDir, img, pipe, limits, overwrite, destinationExists);
    var r := WriteTiledImage(zarrDir, img, pipe, limits, overwrite, destinationExists);
    var st := Stitched(img, pipe);
    var plan := PlanCanvas(st, limits);
    var pass := WriteTiles(st, plan.squeezed, |st|);
    WellRoiOfPlan(st, limits, img.pixelSize.value);
    SetUpWellTable(zarrDir, img, st, plan, overwrite);
    WellSetUpAt(r.effects, Created(zarrDir, img, st, plan, overwrite), pass.effects, Finished(pass.rois));
  }

  /** Entries 2 to 6 of the set-up: open the image, then write and consolidate the one-ROI well table. */
  lemma SetUpWellTable(zarrDir: string, img: TiledImage, tiles: seq<Tile>, plan: CanvasPlan, overwrite: bool)
    requires |tiles| > 0 && img.pixelSize.Some? && |plan.shape| >= 3
    ensures var c := Created(zarrDir, img, tiles, plan, overwrite);
            && |c| == 8
            && c[2] == OpenImage(JoinPath(zarrDir, img.path))
            && c[3] == NewTable(WellTable)
            && c[4] == SetWellRois(WellTable, [WellRoi(plan, img.pixelSize.value)])
            && c[5] == ConsolidateTable(WellTable)
            && c[6] == GetImage
  {
  }

  /** The well-table part of the set-up (entries 2 to 6) keeps its place in the whole log. */
  lemma WellSetUpAt(effects: seq<Effect>, pre: seq<Effect>, mid: seq<Effect>, post: seq<Effect>)
    requires effects == pre + mid + post && |pre| == 8
    ensures |effects| >= 8
    ensures effects[2] == pre[2] && effects[3] == pre[3] && effects[4] == pre[4]
    ensures effects[5] == pre[5] && effects[6] == pre[6]
  {
    InPrefix(effects, pre, mid, post, 2);
    InPrefix(effects, pre, mid, post, 3);
    InPrefix(effects, pre, mid, post, 4);
    InPrefix(effects, pre, mid, post, 5);
    InPrefix(effects, pre, mid, post, 6);
  }

  /**
   * `e` writes tile `i`: at the tile's FOV ROI, with the payload's time axis
   * dropped exactly when the canvas is squeezed.
   */
  predicate WritesTile(e: Effect, tile: Tile, i: nat, squeeze: bool) {
    && e.WriteRegion?
    && e.roi == FovRoi(tile, i)
    && (squeeze <==> e.data.Single?)
    && (squeeze ==> |tile.frames| > 0 && e.data.frame == tile.frames[0])
    && (!squeeze ==> e.data.frames == tile.frames)
  }

  /** A tile loop that completes writes every tile in order. */
  lemma PassWritesTiles(tiles: seq<Tile>, squeeze: bool)
    requires WriteTiles(tiles, squeeze, |tiles|).failedAt.None?
    ensures var pass := WriteTiles(tiles, squeeze, |tiles|);
            && |pass.effects| == |tiles|
            && forall i :: 0 <= i < |tiles| ==> WritesTile(pass.effects[i], tiles[i], i, squeeze)
  {
  }

  lemma ShiftWrites(effects: seq<Effect>, pre: seq<Effect>, mid: seq<Effect>, post: seq<Effect>,
                    tiles: seq<Tile>, squeeze: bool)
    requires effects == pre + mid + post && |pre| == 8 && |mid| == |tiles|
    requires forall i :: 0 <= i < |tiles| ==> WritesTile(mid[i], tiles[i], i, squeeze)
    ensures forall i :: 0 <= i < |tiles| ==> WritesTile(effects[8 + i], tiles[i], i, squeeze)
  {
    forall i | 0 <= i < |tiles|
      ensures WritesTile(effects[8 + i], tiles[i], i, squeeze)
    {
      assert effects[8 + i] == mid[i];
    }
  }

  /**
   * A successful write issues, after the eight set-up effects, one region
   * write per stitched tile, in input order.
   */
  lemma TilesWrittenInOrder(
    zarrDir: string, img: TiledImage, pipe: seq<Tile> -> seq<Tile>,
    limits: ChunkLimits, overwrite: bool, destinationExists: bool)
    requires Completes(img, Stitched(img, pipe), overwrite, destinationExists)
    ensures |Stitched(img, pipe)| == |img.tiles| > 0
    ensures var r := WriteTiledImage(zarrDir, img, pipe, limits, overwrite, destinationExists);
            |r.effects| == 8 + |img.tiles| + 4
    ensures var r := WriteTiledImage(zarrDir, img, pipe, limits, overwrite, destinationExists);
            var st := Stitched(img, pipe);
            forall i :: 0 <= i < |st| ==> WritesTile(r.effects[8 + i], st[i], i, FindShape(st).t <= 1)
  {
    var r := WriteTiledImage(zarrDir, img, pipe, limits, overwrite, destinationExists);
    SuccessfulWrite(zarrDir, img, pipe, limits, overwrite, destinationExists);
    var st := Stitched(img, pipe);
    var plan := PlanCanvas(st, limits);
    var pass := WriteTiles(st, plan.squeezed, |st|);
    var created := Created(zarrDir, img, st, plan, overwrite);
    assert plan.squeezed == (FindShape(st).t <= 1);
    PassWritesTiles(st, plan.squeezed);
    ShiftWrites(r.effects, created, pass.effects, Finished(pass.rois), st, plan.squeezed);
  }

  /** A tile loop that completes records one FOV ROI per tile, in order. */
  lemma PassRoisMatchTiles(tiles: seq<Tile>, squeeze: bool)
    requires WriteTiles(tiles, squeeze, |tiles|).failedAt.None?
    ensures var pass := WriteTiles(tiles, squeeze, |tiles|);
            && |pass.effects| == |pass.rois| == |tiles|
            && forall i :: 0 <= i < |tiles| ==> pass.rois[i] == FovRoi(tiles[i], i)
  {
  }

  lemma Suffix(effects: seq<Effect>, pre: seq<Effect>, mid: seq<Effect>, post: seq<Effect>)
    requires effects == pre + mid + post
    ensures |effects| == |pre| + |mid| + |post|
    ensures effects[|pre| + |mid|..] == post
  {
  }

  /**
   * After the tile writes a successful write builds the pyramid, adjusts the
   * display window, and stores one FOV ROI per stitched tile, in input order.
   */
  lemma FovRoisStored(
    zarrDir: string, img: TiledImage, pipe: seq<Tile> -> seq<Tile>,
    limits: ChunkLimits, overwrite: bool, destinationExists: bool)
    requires Completes(img, Stitched(img, pipe), overwrite, destinationExists)
    ensures |Stitched(img, pipe)| == |img.tiles|
    ensures var r := WriteTiledImage(zarrDir, img, pipe, limits, overwrite, destinationExists);
            var st := Stitched(img, pipe);
            var n := |st|;
            && |r.effects| == 8 + n + 4
            && r.effects[7] == NewTable(FovTable)
            && r.effects[8 + n] == BuildPyramid(1)
            && r.effects[8 + n + 1] == UpdateWindow(1.0, 99.9)
            && r.effects[8 + n + 3] == ConsolidateTable(FovTable)
            && r.effects[8 + n + 2].SetFovRois?
            && r.effects[8 + n + 2].fovTable == FovTable
            && |r.effects[8 + n + 2].fovRois| == n
            && forall i :: 0 <= i < n ==> r.effects[8 + n + 2].fovRois[i] == FovRoi(st[i], i)
  {
    var r := WriteTiledImage(zarrDir, img, pipe, limits, overwrite, destinationExists);
    SuccessfulWrite(zarrDir, img, pipe, limits, overwrite, destinationExists);
    var st := Stitched(img, pipe);
    var plan := PlanCanvas(st, limits);
    var pass := WriteTiles(st, plan.squeezed, |st|);
    PassRoisMatchTiles(st, plan.squeezed);
    InPrefix(r.effects, Created(zarrDir, img, st, plan, overwrite), pass.effects, Finished(pass.rois), 7);
    Suffix(r.effects, Created(zarrDir, img, st, plan, overwrite), pass.effects, Finished(pass.rois));
  }

  /** The canvas a successful write creates contains every stitched tile's bottom-right corner. */
  lemma CanvasCoversTiles(
    zarrDir: string, img: TiledImage, pipe: seq<Tile> -> seq<Tile>,
    limits: ChunkLimits, overwrite: bool, destinationExists: bool)
    requires Completes(img, Stitched(img, pipe), overwrite, destinationExists)
    ensures var r := WriteTiledImage(zarrDir, img, pipe, limits, overwrite, destinationExists);
            var st := Stitched(img, pipe);
            && |r.effects| >= 2 && r.effects[1].CreateImage?
            && var shape := r.effects[1].shape;
               && |shape| >= 3
               && forall i :: 0 <= i < |st| ==>
                    Trunc(st[i].BotR().y) <= shape[|shape| - 2] &&
                    Trunc(st[i].BotR().x) <= shape[|shape| - 1]
  {
    var st := Stitched(img, pipe);
    ContainerMatchesPlan(zarrDir, img, pipe, limits, overwrite, destinationExists);
    TrailingAxes(st, limits);
  }
}

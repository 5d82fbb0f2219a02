/**
 * The compute task: load the pickled image after polling for it, write it,
 * clean the record up, and report one image-list update. The record's
 * visibility is the observation sequence of `Retry`; what unpickling yields,
 * the scratch directory and the destination store are inputs.
 */
module ComputeTools {
  import opened Wrappers
  import opened Decimal
  import opened Tiles
  import opened Canvas
  import opened Writer
  import opened Retry
  import opened InitTools

  /** What unpickling a record yields: a tiled image, or an object of another type. */
  datatype Stored = StoredImage(image: TiledImage) | StoredOther(typeName: string)

  datatype LoadError = RecordMissing | NotATiledImage(typeName: string)

  datatype LoadOutcome = LoadOutcome(poll: PollResult, result: Result<TiledImage, LoadError>)

  /**
   * `_load_tiled_image`: poll, then open the record (the next existence
   * observation decides whether `open` finds it), then check the type.
   */
  function LoadTiledImage(seen: nat -> bool, numRetries: int, content: Stored): (r: LoadOutcome)
    ensures r.poll == Poll(seen, numRetries)
    ensures r.poll.observations <= Attempts(numRetries)
    ensures r.result.Success? <==> seen(r.poll.observations) && content.StoredImage?
    ensures r.result.Success? ==> r.result.value == content.image
    ensures !seen(r.poll.observations) ==> r.result == Failure(RecordMissing)
    ensures seen(r.poll.observations) && content.StoredOther? ==>
              r.result == Failure(NotATiledImage(content.typeName))
  {
    var p := Poll(seen, numRetries);
    if !seen(p.observations) then LoadOutcome(p, Failure(RecordMissing))
    else match content
      case StoredImage(img) => LoadOutcome(p, Success(img))
      case StoredOther(name) => LoadOutcome(p, Failure(NotATiledImage(name)))
  }

  /** A record that never becomes visible is polled for the whole budget and then fails to open. */
  lemma NeverVisibleIsFatal(seen: nat -> bool, numRetries: int, content: Stored)
    requires forall u :: !seen(u)
    ensures var r := LoadTiledImage(seen, numRetries, content);
            && !r.poll.found
            && r.poll.observations == Attempts(numRetries)
            && r.result == Failure(RecordMissing)
  {
  }

  /**
   * A record that becomes visible within the budget, at attempt `first`, and
   * stays visible loads,
   * as the image that was pickled.
   */
  lemma VisibleRecordLoads(seen: nat -> bool, numRetries: int, img: TiledImage, first: nat)
    requires first < Attempts(numRetries)
    requires forall u :: seen(u) <==> first <= u
    ensures LoadTiledImage(seen, numRetries, StoredImage(img)).result == Success(img)
  {
    var p := Poll(seen, numRetries);
    assert p.found by {
      assert seen(first);
    }
    assert first < p.observations - 1 ==> !seen(first);
    assert seen(p.observations - 1);
    assert p.observations == first + 1;
  }

  /** The scratch directory holding the records: absent, or present with these file names. */
  datatype ScratchDir = Absent | Present(entries: set<string>)

  datatype CleanupOutcome = CleanupOutcome(poll: PollResult, dir: ScratchDir)

  /**
   * `_clean_up_pickled_file`: poll for the record, unlink it, remove the
   * directory if that left it empty. A failing unlink (the record is already
   * gone) raises inside the guarded block and is swallowed, so the directory
   * is then left as it is; nothing escapes.
   */
  function CleanUpRecord(dir: ScratchDir, name: string, numRetries: int): (r: CleanupOutcome)
    ensures r.dir.Present? ==> dir.Present? && r.dir.entries == dir.entries - {name}
    ensures r.dir.Absent? <==> dir.Absent? || (name in dir.entries && dir.entries - {name} == {})
    ensures r.poll.found <==> Attempts(numRetries) > 0 && dir.Present? && name in dir.entries
  {
    var there := dir.Present? && name in dir.entries;
    var p := Poll(_ => there, numRetries);
    if !there then CleanupOutcome(p, dir)
    else
      var rest := dir.entries - {name};
      if rest == {} then CleanupOutcome(p, Absent)
      else CleanupOutcome(p, Present(rest))
  }

  /**
   * Cleaning up an already cleaned-up record changes nothing, which is why a
   * second worker's duplicate cleanup is harmless.
   */
  lemma CleanupIdempotent(dir: ScratchDir, name: string, numRetries: int)
    ensures var once := CleanUpRecord(dir, name, numRetries).dir;
            CleanUpRecord(once, name, numRetries).dir == once
  {
  }

  /** The attributes a path builder derives: well and plate for a plate layout, none otherwise. */
  function LayoutAttributes(pb: PathBuilder): (m: map<string, string>)
    ensures pb.Flat? ==> m == map[]
    ensures pb.Plate? ==> m.Keys == {"well", "plate"}
    ensures pb.Plate? ==> m["well"] == pb.row + IntToString(pb.column) && m["plate"] == pb.platePath
  {
    match pb
    case Plate(row, column, _, platePath) =>
      map["well" := row + IntToString(column), "plate" := platePath]
    case Flat(_) => map[]
  }

  /**
   * The well name ends in the column number, which reads back from the
   * digits after the row.
   */
  lemma {:induction false} WellNameEndsInColumn(pb: PathBuilder)
    requires pb.Plate? && pb.column >= 0
    ensures var well := LayoutAttributes(pb)["well"];
            && |well| > |pb.row|
            && well[..|pb.row|] == pb.row
            && AllDigits(well[|pb.row|..])
            && ParseDigits(well[|pb.row|..]) == pb.column
  {
    var well := LayoutAttributes(pb)["well"];
    assert well[|pb.row|..] == NatToString(pb.column);
    ParseNatToString(pb.column);
  }

  /** `{**layout_attributes, **tiled_image.attributes}`: the image's own attributes win. */
  function MergeAttributes(pb: PathBuilder, attributes: Option<map<string, string>>): (m: map<string, string>)
    ensures attributes.None? ==> m == LayoutAttributes(pb)
    ensures attributes.Some? ==> m.Keys == LayoutAttributes(pb).Keys + attributes.value.Keys
    ensures attributes.Some? ==> forall k :: k in attributes.value ==> m[k] == attributes.value[k]
    ensures forall k :: k in LayoutAttributes(pb) && (attributes.None? || k !in attributes.value) ==>
              k in m && m[k] == LayoutAttributes(pb)[k]
  {
    if attributes.None? then LayoutAttributes(pb) else LayoutAttributes(pb) + attributes.value
  }

  /** The plate image of the compute test gets well "A0" and its plate path. */
  lemma MergeScenario()
    ensures MergeAttributes(Plate("A", 0, 0, "plate_1.zarr"), None)
            == map["well" := "A0", "plate" := "plate_1.zarr"]
  {
    assert IntToString(0) == "0";
    assert "A" + "0" == "A0";
  }

  /** The stitching options the pipe is configured with. */
  datatype StitchParams = StitchParams(mode: string, swapXY: bool, invertX: bool, invertY: bool)

  /** `partial(standard_stitching_pipe, mode=..., swap_xy=..., invert_x=..., invert_y=...)` */
  function StitchingPipe(stitch: (seq<Tile>, StitchParams) -> seq<Tile>, options: ComputeOptions): seq<Tile> -> seq<Tile> {
    tiles => stitch(tiles, StitchParams(options.tilingMode, options.swapXY, options.invertX, options.invertY))
  }

  /**
   * The pipe is configured by the tiling mode and the swap and inversion
   * flags alone: options that agree on those give the same stitching.
   */
  lemma PipeFollowsStitchOptions(
    stitch: (seq<Tile>, StitchParams) -> seq<Tile>, a: ComputeOptions, b: ComputeOptions, tiles: seq<Tile>)
    requires a.tilingMode == b.tilingMode && a.swapXY == b.swapXY
    requires a.invertX == b.invertX && a.invertY == b.invertY
    ensures StitchingPipe(stitch, a)(tiles) == StitchingPipe(stitch, b)(tiles)
    ensures StitchingPipe(stitch, a)(tiles) == stitch(tiles, StitchParams(a.tilingMode, a.swapXY, a.invertX, a.invertY))
  {
  }

  /** The configured chunk maxima. */
  function LimitsOf(options: ComputeOptions): ChunkLimits {
    ChunkLimits(options.maxXYChunk, options.zChunk, options.cChunk, options.tChunk)
  }

  /** What the compute task cannot see inside: storage observations and the stitching policy. */
  datatype Env = Env(
    numRetries: int,
    seen: nat -> bool,
    content: Stored,
    scratch: ScratchDir,
    destinationExists: bool,
    stitch: (seq<Tile>, StitchParams) -> seq<Tile>)

  datatype ImageUpdate = ImageUpdate(zarrUrl: string, types: map<string, bool>, attributes: map<string, string>)

  /** `{"image_list_updates": [...]}` */
  datatype TaskOutput = TaskOutput(imageListUpdates: seq<ImageUpdate>)

  datatype TaskError =
    | LoadFailed(loadError: LoadError)
    | WriteFailed(writeError: WriteError)
    | CallFailed(unexpected: set<string>)

  datatype ComputeOutcome = ComputeOutcome(effects: seq<Effect>, scratch: ScratchDir, result: Result<TaskOutput, TaskError>)

  /**
   * `generic_compute_task`, with the writer given the configured chunk maxima.
   * A load failure happens before the guarded block and leaves the record; a
   * write failure cleans the record up and re-raises the same error; success
   * cleans up and reports one update.
   */
  function GenericCompute(zarrUrl: string, args: InitArgs, env: Env): (r: ComputeOutcome)
    ensures LoadTiledImage(env.seen, env.numRetries, env.content).result.Failure? ==>
              r == ComputeOutcome([], env.scratch,
                                  Failure(LoadFailed(LoadTiledImage(env.seen, env.numRetries, env.content).result.error)))
    ensures r.result.Failure? && !r.result.error.LoadFailed? ==>
              r.scratch == CleanUpRecord(env.scratch, args.recordPath.name, env.numRetries).dir
    ensures r.result.Success? ==>
              && r.scratch == CleanUpRecord(env.scratch, args.recordPath.name, env.numRetries).dir
              && |r.result.value.imageListUpdates| == 1
              && r.result.value.imageListUpdates[0].types.Keys == {"is_3D"}
  {
    var load := LoadTiledImage(env.seen, env.numRetries, env.content);
    if load.result.Failure? then ComputeOutcome([], env.scratch, Failure(LoadFailed(load.result.error)))
    else
      var img := load.result.value;
      var w := WriteTiledImage(zarrUrl, img, StitchingPipe(env.stitch, args.options),
                               LimitsOf(args.options), args.overwrite, env.destinationExists);
      var cleaned := CleanUpRecord(env.scratch, args.recordPath.name, env.numRetries).dir;
      if w.result.Failure? then ComputeOutcome(w.effects, cleaned, Failure(WriteFailed(w.result.error)))
      else
        var attributes := MergeAttributes(img.pathBuilder, img.attributes);
        ComputeOutcome(w.effects, cleaned,
          Success(TaskOutput([ImageUpdate(w.result.value.url, map["is_3D" := w.result.value.is3d], attributes)])))
  }

  /** The image the compute task loads, when it loads one. */
  function Loaded(env: Env): Result<TiledImage, LoadError> {
    LoadTiledImage(env.seen, env.numRetries, env.content).result
  }

  /** The writer call the compute task makes once the image is loaded. */
  function TaskWrite(zarrUrl: string, args: InitArgs, env: Env): WriteOutcome
    requires Loaded(env).Success?
  {
    WriteTiledImage(zarrUrl, Loaded(env).value, StitchingPipe(env.stitch, args.options),
                    LimitsOf(args.options), args.overwrite, env.destinationExists)
  }

  /** The loaded image meets the conditions under which the writer completes. */
  predicate WriteCompletes(zarrUrl: string, args: InitArgs, env: Env)
    requires Loaded(env).Success?
  {
    var img := Loaded(env).value;
    Completes(img, Stitched(img, StitchingPipe(env.stitch, args.options)), args.overwrite, env.destinationExists)
  }

  /**
   * When writing fails, the record is cleaned up and the writer's own error
   * is re-raised; whatever the writer did stays done and no update is reported.
   */
  lemma WriteFailureCleansUpAndReraises(zarrUrl: string, args: InitArgs, env: Env)
    requires Loaded(env).Success? && TaskWrite(zarrUrl, args, env).result.Failure?
    ensures GenericCompute(zarrUrl, args, env) == ComputeOutcome(
              TaskWrite(zarrUrl, args, env).effects,
              CleanUpRecord(env.scratch, args.recordPath.name, env.numRetries).dir,
              Failure(WriteFailed(TaskWrite(zarrUrl, args, env).result.error)))
  {
  }

  /**
   * On success the one update names the written image, says whether it is
   * 3D, and carries the layout attributes overridden by the image's own.
   */
  lemma SuccessRecord(zarrUrl: string, args: InitArgs, env: Env)
    requires Loaded(env).Success?
    requires WriteCompletes(zarrUrl, args, env)
    ensures var img := Loaded(env).value;
            var written := TaskWrite(zarrUrl, args, env).result;
            && written.Success?
            && GenericCompute(zarrUrl, args, env).result.value == TaskOutput([ImageUpdate(
                 JoinPath(zarrUrl, img.path),
                 map["is_3D" := written.value.is3d],
                 MergeAttributes(img.pathBuilder, img.attributes))])
  {
  }

  /**
   * The compute task creates the container with chunks clamped to the configured
   * maxima: every on-disk axis gets the first stitched tile's extent on that
   * axis, or the configured maximum if that is smaller.
   */
  lemma ChunksFollowOptions(zarrUrl: string, args: InitArgs, env: Env)
    requires Loaded(env).Success?
    requires WriteCompletes(zarrUrl, args, env)
    ensures var r := GenericCompute(zarrUrl, args, env);
            var st := Stitched(Loaded(env).value, StitchingPipe(env.stitch, args.options));
            && |st| > 0 && |r.effects| >= 2 && r.effects[1].CreateImage?
            && |r.effects[1].chunks| == |r.effects[1].axes|
            && forall j :: 0 <= j < |r.effects[1].axes| ==>
                 r.effects[1].chunks[j] == Extent(FindChunkShape(st, LimitsOf(args.options)), r.effects[1].axes[j])
  {
    var img := Loaded(env).value;
    var pipe := StitchingPipe(env.stitch, args.options);
    var limits := LimitsOf(args.options);
    ContainerMatchesPlan(zarrUrl, img, pipe, limits, args.overwrite, env.destinationExists);
    PlanFollowsAxes(Stitched(img, pipe), limits);
  }

  /**
   * The second run of the compute test: the destination exists and
   * `overwrite` is unset, so container creation fails, the record is cleaned
   * up and the error reaches the caller.
   */
  lemma RerunWithoutOverwriteFails(zarrUrl: string, args: InitArgs, env: Env)
    requires Loaded(env).Success?
    requires var img := Loaded(env).value;
             && |img.tiles| > 0 && img.pixelSize.Some?
             && |Stitched(img, StitchingPipe(env.stitch, args.options))| == |img.tiles|
    requires env.destinationExists && !args.overwrite
    ensures var r := GenericCompute(zarrUrl, args, env);
            && r.result == Failure(WriteFailed(AlreadyExists(JoinPath(zarrUrl, Loaded(env).value.path))))
            && r.effects == [MakeDirs(zarrUrl)]
            && r.scratch == CleanUpRecord(env.scratch, args.recordPath.name, env.numRetries).dir
  {
    ExistingDestinationRejected(zarrUrl, Loaded(env).value, StitchingPipe(env.stitch, args.options),
                                LimitsOf(args.options));
  }

  /**
   * The first run of the compute test: a single plate image "A"/0 of
   * "plate_1.zarr" without attributes goes through the init phase unchanged
   * and, once written, is reported with well "A0" and its plate.
   */
  lemma SingleImageRun(zarrDir: string, img: TiledImage, options: ComputeOptions, uuids: nat -> string, env: Env)
    requires img.pathBuilder == Plate("A", 0, 0, "plate_1.zarr") && img.attributes.None?
    requires env.content == StoredImage(img) && Loaded(env).Success?
    requires Completes(img, Stitched(img, StitchingPipe(env.stitch, options)), false, env.destinationExists)
    ensures var init := BuildParallelizationList(zarrDir, [img], false, options, None, uuids);
            && init.records[0].image == img
            && var r := GenericCompute(init.units[0].zarrUrl, init.units[0].initArgs, env);
               && |r.result.value.imageListUpdates| == 1
               && r.result.value.imageListUpdates[0].zarrUrl == JoinPath(zarrDir, img.path)
               && r.result.value.imageListUpdates[0].attributes == map["well" := "A0", "plate" := "plate_1.zarr"]
  {
    var init := BuildParallelizationList(zarrDir, [img], false, options, None, uuids);
    assert AcquisitionIds([img]) == {0} by {
      assert forall a :: a in AcquisitionIds([img]) <==> a == 0;
    }
    SuccessRecord(init.units[0].zarrUrl, init.units[0].initArgs, env);
    MergeScenario();
  }

  /** The parameters the writer declares. */
  const WriterParameters: set<string> := {"zarr_dir", "tiled_image", "stiching_pipe", "overwrite"}

  /** The keywords the compute task passes to the writer. */
  const TaskCallKeywords: set<string> := {
    "zarr_dir", "tiled_image", "stiching_pipe", "num_levels",
    "max_xy_chunk", "z_chunk", "c_chunk", "t_chunk", "overwrite"}

  /**
   * `generic_compute_task` as written against a writer declaring the
   * parameters `accepted`: a keyword the writer does not declare makes the
   * call raise inside the guarded block, so the record is cleaned up and the
   * error re-raised. A writer that binds every keyword still chunks with its
   * defaults, as the writer's body does.
   */
  function GenericComputeAsWritten(zarrUrl: string, args: InitArgs, env: Env, accepted: set<string>): (r: ComputeOutcome)
    ensures r.result.Success? ==> TaskCallKeywords <= accepted
    ensures Loaded(env).Success? && !(TaskCallKeywords <= accepted) ==>
              r == ComputeOutcome([], CleanUpRecord(env.scratch, args.recordPath.name, env.numRetries).dir,
                                  Failure(CallFailed(TaskCallKeywords - accepted)))
  {
    var load := LoadTiledImage(env.seen, env.numRetries, env.content);
    if load.result.Failure? then ComputeOutcome([], env.scratch, Failure(LoadFailed(load.result.error)))
    else
      var img := load.result.value;
      var cleaned := CleanUpRecord(env.scratch, args.recordPath.name, env.numRetries).dir;
      if !(TaskCallKeywords <= accepted) then
        ComputeOutcome([], cleaned, Failure(CallFailed(TaskCallKeywords - accepted)))
      else
        var w := WriteTiledImage(zarrUrl, img, StitchingPipe(env.stitch, args.options),
                                 DefaultLimits, args.overwrite, env.destinationExists);
        if w.result.Failure? then ComputeOutcome(w.effects, cleaned, Failure(WriteFailed(w.result.error)))
        else
          var attributes := MergeAttributes(img.pathBuilder, img.attributes);
          ComputeOutcome(w.effects, cleaned,
            Success(TaskOutput([ImageUpdate(w.result.value.url, map["is_3D" := w.result.value.is3d], attributes)])))
  }

  /**
   * Against the writer's declared parameters, every task whose record loads
   * fails on the five chunking and pyramid keywords before anything is written.
   */
  lemma AsWrittenCallAlwaysFails(zarrUrl: string, args: InitArgs, env: Env)
    requires Loaded(env).Success?
    ensures GenericComputeAsWritten(zarrUrl, args, env, WriterParameters) == ComputeOutcome(
              [], CleanUpRecord(env.scratch, args.recordPath.name, env.numRetries).dir,
              Failure(CallFailed({"num_levels", "max_xy_chunk", "z_chunk", "c_chunk", "t_chunk"})))
  {
    assert "num_levels" in TaskCallKeywords && "num_levels" !in WriterParameters;
    var extra := {"num_levels", "max_xy_chunk", "z_chunk", "c_chunk", "t_chunk"};
    assert TaskCallKeywords == WriterParameters + extra;
    assert WriterParameters !! extra;
    assert TaskCallKeywords - WriterParameters == extra;
  }
}

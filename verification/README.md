# Tiled-image conversion core of fractal-converters-tools, in Dafny

This project models the core of a converter that turns microscope tile sets into OME-Zarr images:

- **Canvas planning.** The on-disk shape is the furthest bottom-right tile corner in y and x. The chunk shape is each axis's first-tile extent, clamped to a configured maximum. The time axis is squeezed out when there is at most one time point.
- **The image writer.** `write_tiled_image` checks its preconditions in order. It creates the container, registers the well ROI and writes every tile at its FOV ROI.
- **The init phase.** Plate images are tagged with their acquisition when a batch mixes acquisitions. Then one parallelization unit per image is built.
- **The compute phase.** It polls for the pickled record with exponential backoff. It loads the record and type-checks it. It writes the image. It cleans the record up, also when writing fails, and then re-raises. It merges the path-builder attributes with the image's own attributes and reports one image-list update.

All of it is written as pure functions over immutable datatypes:

- The container library's calls become an effect log (`Writer.Effect`).
- The record store becomes a sequence of existence observations (`seen: nat -> bool`) plus the unpickled value.
- The scratch directory becomes a value (`ComputeTools.ScratchDir`).
- The stitching pipe is a function parameter.

Modules: `Wrappers` (Option/Result), `Decimal` (Python's `str(int)`), `Tiles` (data model), `Canvas`, `Writer`, `InitTools`, `Retry`, `ComputeTools`.

## Model

| member | source | states |
|---|---|---|
| Tiles.Trunc | src/fractal_converters_tools/omezarr_image_writers.py:17-18 | `int()` on a coordinate truncates toward zero: the result lies within one unit of the value, on its side of 0 |
| Canvas.MaxOf | src/fractal_converters_tools/omezarr_image_writers.py:17-18 | `max` over a non-empty list bounds every element and is one of them |
| Canvas.FindShape | src/fractal_converters_tools/omezarr_image_writers.py:15-20 | every tile's truncated bottom-right y/x is at most the canvas y/x, and some tile reaches each; t, c, z are the first tile's |
| Canvas.FindChunkShape | src/fractal_converters_tools/omezarr_image_writers.py:23-36 | each chunk size is at most both the first tile's extent and the axis maximum and equals one of them; it is at least 1 when both are |
| Canvas.PlanCanvas | src/fractal_converters_tools/omezarr_image_writers.py:62-70 | squeeze happens iff canvas t ≤ 1; then the axes are (c,z,y,x) and shape and chunks are the full tuples minus their first entry; otherwise rank 5 with axes (t,c,z,y,x) and the full tuples |
| Canvas.PlanFollowsAxes | src/fractal_converters_tools/omezarr_image_writers.py:62-70 | squeezed or not, every on-disk position holds the canvas extent and chunk size of the axis it is labelled with, and the last three axes are z, y, x |
| Writer.WriteTiledImage | src/fractal_converters_tools/omezarr_image_writers.py:50-75 | an empty tile list fails before the pipe runs; a pipe that changes the tile count fails; a missing pixel size fails with `NoPixelSize`. Each of these leaves no effect; success needs all three checks passed and returns `zarr_dir/path` |
| Writer.WriteSucceedsIff | src/fractal_converters_tools/omezarr_image_writers.py:51-132 | the write succeeds iff tiles are non-empty, the count is kept, the pixel size is set, the destination may be written, and no tile needs frame 0 of an empty time axis |
| Writer.ExistingDestinationRejected | src/fractal_converters_tools/omezarr_image_writers.py:79-93 | an existing destination without `overwrite` fails at container creation; only the destination directory was made |
| Writer.ContainerMatchesPlan | src/fractal_converters_tools/omezarr_image_writers.py:77-93 | the container is created once, right after the directory, with the planned shape/axes/chunks, the first stitched tile's dtype (`_find_dtype`, inlined), the pixel size, and the channel names as both labels and wavelengths; "t" is on disk iff canvas t > 1, which is when the image is a time series |
| Writer.WellRoiOfPlan | src/fractal_converters_tools/omezarr_image_writers.py:98-108 | the well ROI read from the last three on-disk dimensions has origin 0 and lengths canvas x/y/z times pixel size, tagged FieldIndex "Well" |
| Writer.WellRoi | src/fractal_converters_tools/omezarr_image_writers.py:98-108 | the well ROI sits at origin 0 and is tagged FieldIndex "Well"; its lengths are pinned by `Writer.WellRoiOfPlan` |
| Writer.WellRoiSpansCanvas | src/fractal_converters_tools/omezarr_image_writers.py:95-112 | after creating the container a successful write opens it, creates the well table, stores exactly that one canvas-spanning well ROI in it, consolidates the table and fetches the image (effects 2 to 6) |
| Writer.FovName | src/fractal_converters_tools/omezarr_image_writers.py:126 | the FOV tag is "FOV_" followed by digits that read back as the tile index, with no leading zero ("FOV_7", never "FOV_07") |
| Writer.FovRoi | src/fractal_converters_tools/omezarr_image_writers.py:117-126 | the FOV ROI's origin is the truncated top-left corner and its lengths the truncated diagonal; its infos hold FieldIndex and the tile's origin keys, origin values winning |
| Writer.WriteTiles | src/fractal_converters_tools/omezarr_image_writers.py:115-132 | the loop writes tiles in order, each at its own FOV ROI; it stops at the first tile whose payload has no frame 0 to take under a squeeze, and only then |
| Writer.TilesWrittenInOrder | src/fractal_converters_tools/omezarr_image_writers.py:115-132 | a successful write issues exactly one region write per stitched tile, in input order, at index 8 + i, after the eight set-up calls whose contents `Writer.ContainerMatchesPlan`, `Writer.WellRoiSpansCanvas` and `Writer.FovRoisStored` state; each write drops the payload's time axis exactly when the canvas is squeezed |
| Writer.FovRoisStored | src/fractal_converters_tools/omezarr_image_writers.py:113-137 | the FOV table is created before the tile loop; after the writes come pyramid (order 1), window (1, 99.9), then the FOV ROIs. The table holds exactly one ROI per tile, in order |
| Writer.CanvasCoversTiles | src/fractal_converters_tools/omezarr_image_writers.py:62-93 | the created container's y/x extents contain every stitched tile's bottom-right corner |
| Decimal.NatToString | src/fractal_converters_tools/task_init_tools.py:35 | `str` of a natural number is a non-empty string of digits with no leading zero: a leading '0' means the number is 0 and the string is exactly "0" |
| Decimal.ParseNatToString | src/fractal_converters_tools/task_init_tools.py:35 | reading the decimal string back gives the number |
| Decimal.IntToString | src/fractal_converters_tools/task_init_tools.py:35 | `str` of an integer is non-empty; for a non-negative integer it is digits that read back as the integer, with no leading zero; for a negative one it is "-" followed by the digits of its magnitude |
| Decimal.IntToStringInjective | src/fractal_converters_tools/task_init_tools.py:35 | distinct integers render as distinct strings |
| InitTools.AcquisitionIds | src/fractal_converters_tools/task_init_tools.py:20-24 | an id is in the set iff some plate-layout image carries it; flat images contribute nothing |
| InitTools.FlatImagesAddNoIds | src/fractal_converters_tools/task_init_tools.py:20-24 | appending flat images to a batch leaves its acquisition-id set unchanged |
| InitTools.WithAcquisition | src/fractal_converters_tools/task_init_tools.py:32-35 | tagging sets "acquisition" to `str(acquisition_id)`, turns an absent map into a singleton, keeps other keys, and touches nothing but the attributes |
| InitTools.AddAcquisitionAttributes | src/fractal_converters_tools/task_init_tools.py:14-37 | same length and order. With at most one id the list is returned unchanged. Flat images are unchanged. With two or more ids every plate image is tagged |
| InitTools.AcquisitionTagsSeparate | src/fractal_converters_tools/task_init_tools.py:29-37 | in a mixed batch two plate images get equal tags iff they share an acquisition id |
| InitTools.ScratchName | src/fractal_converters_tools/task_init_tools.py:59 | `None` and "" fall back to "_tmp_coverter_dir"; any other name is kept; the result is never empty |
| InitTools.BuildParallelizationList | src/fractal_converters_tools/task_init_tools.py:59-79 | one record and one unit per image, in order. Each unit carries `zarr_dir`, the overwrite flag and the options, plus its own record under `zarr_dir/tmp_dir_name`. That record holds the annotated image |
| InitTools.RecordNameInjective | src/fractal_converters_tools/task_init_tools.py:66 | distinct uuids give distinct `.pkl` names |
| InitTools.RecordPathsDistinct | src/fractal_converters_tools/task_init_tools.py:65-76 | with distinct uuids no two units share a record path |
| Retry.PollFrom | src/fractal_converters_tools/task_compute_tools.py:29-39 | from attempt t on: stops at the first check that sees the file. Otherwise it runs out the budget. After each failed check u it sleeps 2^(u+1) |
| Retry.Poll | src/fractal_converters_tools/task_compute_tools.py:29-39 | at most NUM_RETRIES checks; the file is found iff some check within the budget sees it, and the poll stops at the first such check; the i-th sleep is 2^(i+1), the last failed check included; nothing is raised |
| Retry.CheckRecordExists | src/fractal_converters_tools/task_compute_tools.py:29-39 | the loop as written computes exactly the poll's result |
| Retry.BackoffTotal | src/fractal_converters_tools/task_compute_tools.py:38-39 | k backoff sleeps add up to 2^(k+1) − 2 |
| Retry.NeverSeenWaitsFullBudget | src/fractal_converters_tools/task_compute_tools.py:29-39 | a file that never appears costs NUM_RETRIES checks and 2^(NUM_RETRIES+1) − 2 of sleep |
| Retry.DefaultBudgetWait | src/fractal_converters_tools/task_compute_tools.py:17-39 | with `COVERTERS_TOOLS_NUM_RETRIES` unset (5 retries), a file that never appears costs five checks and 62 of sleep |
| ComputeTools.LoadTiledImage | src/fractal_converters_tools/task_compute_tools.py:42-56 | the load runs the existence poll first, then opens the record at the next observation; it succeeds iff the record opens and holds a TiledImage, which is then returned unchanged; otherwise the error is "missing" or "not a TiledImage" |
| ComputeTools.NeverVisibleIsFatal | src/fractal_converters_tools/task_compute_tools.py:51-53 | a record that never appears is polled for the whole budget without raising, then fails to open |
| ComputeTools.VisibleRecordLoads | src/fractal_converters_tools/task_compute_tools.py:51-56 | a record that appears within the budget and stays loads as the pickled image |
| ComputeTools.CleanUpRecord | src/fractal_converters_tools/task_compute_tools.py:59-74 | the record is gone afterwards. The directory is removed iff the unlink emptied it. A missing record leaves the directory as it was. No error escapes |
| ComputeTools.CleanupIdempotent | src/fractal_converters_tools/task_compute_tools.py:66-74 | a second cleanup of the same record changes nothing |
| ComputeTools.LayoutAttributes | src/fractal_converters_tools/task_compute_tools.py:119-125 | a plate layout yields exactly the keys "well" and "plate", with well = row followed by `str(column)` and plate = the plate path; a flat layout yields none |
| ComputeTools.WellNameEndsInColumn | src/fractal_converters_tools/task_compute_tools.py:120-121 | for a non-negative column, the well name starts with the row, and the digits after it read back as the column |
| ComputeTools.MergeAttributes | src/fractal_converters_tools/task_compute_tools.py:127-131 | merged keys are the union. Free-form values win. Layout values survive where the free-form map lacks the key. With no free-form map the layout attributes are returned |
| ComputeTools.MergeScenario | tests/test_compute_tools.py:50 | plate "A", column 0, "plate_1.zarr" without attributes gives {"well": "A0", "plate": "plate_1.zarr"} |
| ComputeTools.PipeFollowsStitchOptions | src/fractal_converters_tools/task_compute_tools.py:93-99 | the stitching pipe hands the standard pipe the configured tiling mode, swap and inversion flags, and depends on no other option |
| ComputeTools.GenericCompute | src/fractal_converters_tools/task_compute_tools.py:89-139 | a load failure raises before the guarded block and leaves the record. Every other outcome cleans the record up. Success reports one update whose types are exactly {"is_3D"} |
| ComputeTools.WriteFailureCleansUpAndReraises | src/fractal_converters_tools/task_compute_tools.py:112-115 | a failing write cleans up and re-raises the writer's own error, with no update reported |
| ComputeTools.SuccessRecord | src/fractal_converters_tools/task_compute_tools.py:117-139 | the single update carries the writer's URL, {"is_3D": is_3d} and the merged attributes |
| ComputeTools.ChunksFollowOptions | src/fractal_converters_tools/task_compute_tools.py:101-111 | with the configured maxima passed through, every on-disk chunk is the first tile's extent on that axis clamped to its configured maximum |
| ComputeTools.RerunWithoutOverwriteFails | tests/test_compute_tools.py:52-61 | re-running against an existing destination without overwrite fails at container creation, after cleanup |
| ComputeTools.SingleImageRun | tests/test_compute_tools.py:15-50 | a single plate image passes through init unchanged and is reported at `zarr_dir/path` with well "A0" and plate "plate_1.zarr" |
| ComputeTools.GenericComputeAsWritten | src/fractal_converters_tools/task_compute_tools.py:92-115 | against a writer that does not declare every passed keyword, a loaded task cleans up and fails, its error recording the undeclared keywords; success needs every keyword declared |
| ComputeTools.AsWrittenCallAlwaysFails | src/fractal_converters_tools/task_compute_tools.py:101-111 | against the writer's declared parameters the call always fails before anything is written; the undeclared keywords are num_levels, max_xy_chunk, z_chunk, c_chunk and t_chunk |

## Behaviour worth noting

- Chunk sizes are the first tile's extents, clamped to the maxima (`omezarr_image_writers.py:30-35`). The canvas extent does not take part in the clamp.
- `write_tiled_image` calls `_find_chunk_shape` without maxima, so the defaults 4096/1/1/1 apply (`omezarr_image_writers.py:64`). `Writer.WriteTiledImage` therefore takes the maxima as a parameter. The compute task passes the configured ones; `Tiles.DefaultLimits` holds the defaults.
- The time axis is squeezed whenever the canvas t-extent is not greater than 1, so an extent of 0 is squeezed as well (`omezarr_image_writers.py:66`).
- A squeezed write indexes frame 0 of each tile payload (`omezarr_image_writers.py:131`). In the model a payload's frame count is independent of the tile's `shape.t`. A payload with no frames under a squeeze fails with `Writer.EmptyTimeAxis` after the tiles before it were written.
- The poll sleeps 2^(t+1) after failed check t, starting at 2, and it also sleeps after the last failed check (`task_compute_tools.py:38-39`).
- Cleanup polls for the record before unlinking it (`task_compute_tools.py:65`).
- The load runs before the guarded block (`task_compute_tools.py:89-90`), so a load failure does not clean the record up.

## Left out

- Container library internals are left out. The writer's calls on it are recorded as `Writer.Effect` values, in call order: creating the image, opening it, creating a table, setting its ROIs, consolidating it, fetching the image, writing a region, building the pyramid and setting the display window. What these calls do inside the library is not modelled. Of their failures, only "destination exists without overwrite" is modelled.
- Raster-to-world ROI conversion and the `original_roi` reference: FOV ROIs stay in pixel units. Pixel sizes are `real`, and their product with extents is computed in exact reals (`Writer.Scale`).
- Tile coordinates are Python floats in the repository; the model takes them as exact reals. Three consequences are not modelled: float rounding in the corner sums and in `int()`; the ValueError or OverflowError that `int()` raises on NaN or infinity, which would surface in `_find_shape` before the pixel-size check; and the tile class itself, whose bottom-right corner the model assumes to be top-left plus diagonal (`Tiles.Tile.BotR`).
- ComputeTools.AsWrittenCallAlwaysFails: Python's TypeError names only the first unexpected keyword; the model's `CallFailed` carries the set of all undeclared keywords.
- `is_3d` and `is_time_series` are computed by the container library, whose code is not part of this model. The model assumes canvas z > 1 and canvas t > 1 respectively.
- Pickling is left out: the unpickled value is an input (`ComputeTools.Stored`), and the init phase returns the records it would write.
- `uuid4` is the parameter `uuids`.
- Neither `mkdir` of the scratch directory nor logging is modelled.
- `time.sleep` is recorded as a list of waits instead of being performed.
- `standard_stitching_pipe` is an arbitrary function parameter.
- The `Tile`, `TiledImage`, path-builder and options classes are not part of this model. They appear as plain datatypes with the fields used here. `tiled_image.path` is a field, since the path builder's path derivation is not part of this model. `tiled_image.attributes` is assumed to read the `_attributes` that the init phase sets.
- `num_levels` is passed by the compute task, but `write_tiled_image` has no use for it.
- Python paths are not normalised: `Tiles.JoinPath` joins with "/". A record path is a (directory, name) pair rather than its string.
- `_add_acquisition_attributes` mutates the caller's images in place; the model returns new values instead.
- The environment-variable parse of `NUM_RETRIES` is left out; the count is an `int` parameter.
- I/O errors from loading a tile payload, other than indexing an empty time axis, are left out.
- Exceptions raised by the stitching pipe itself are left out.
- ComputeTools.GenericCompute: the record's visibility to the load (`Env.seen`) and the scratch directory that cleanup sees (`Env.scratch`) are independent inputs. The model therefore also admits a run whose record loaded but whose cleanup finds no record. Such a run can happen with a concurrent cleanup; the model does not link the two.
- Concurrency between workers and cleanup races: the model is sequential. `ComputeTools.CleanupIdempotent` shows that a duplicate cleanup is harmless.

## Findings

| source | as written | input that shows it | evidently intended | confidence | as-written member | corrected member |
|---|---|---|---|---|---|---|
| src/fractal_converters_tools/task_compute_tools.py:101-111 | the compute task passes `num_levels`, `max_xy_chunk`, `z_chunk`, `c_chunk` and `t_chunk` to `write_tiled_image`, whose signature (`omezarr_image_writers.py:44-49`) declares none of them, so the call raises inside the guarded block and every unit fails after cleanup | any unit whose record loads | the writer accepts the configured chunk maxima and chunks with them | medium, not executed: the repository's test expects success, so its writer may have a newer signature than the one at `omezarr_image_writers.py:44-49` | ComputeTools.GenericComputeAsWritten, ComputeTools.AsWrittenCallAlwaysFails | ComputeTools.GenericCompute, ComputeTools.ChunksFollowOptions |

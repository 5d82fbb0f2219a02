/**
 * The init phase: tag plate images with their acquisition when a batch mixes
 * acquisitions, then describe one compute unit per image. Pickling, `uuid4`
 * and `mkdir` are I/O: the records written are returned as data and the
 * record names are supplied as a parameter.
 */
module InitTools {
  import opened Wrappers
  import opened Decimal
  import opened Tiles

  /** The acquisition id a plate image contributes; flat images contribute none. */
  function OwnIds(img: TiledImage): set<int> {
    if img.pathBuilder.Plate? then {img.pathBuilder.acquisitionId} else {}
  }

  /** The distinct acquisition ids of the plate images of a batch. */
  function AcquisitionIds(imgs: seq<TiledImage>): (ids: set<int>)
    ensures forall a :: a in ids <==>
              exists i :: 0 <= i < |imgs| && imgs[i].pathBuilder.Plate? && imgs[i].pathBuilder.acquisitionId == a
  {
    if |imgs| == 0 then {}
    else
      var rest := AcquisitionIds(imgs[1..]);
      assert forall i :: 1 <= i < |imgs| ==> imgs[1..][i - 1] == imgs[i];
      OwnIds(imgs[0]) + rest
  }

  /**
   * A plate image with `attributes["acquisition"] = str(acquisition_id)`,
   * starting from an empty map when it had none.
   */
  function WithAcquisition(img: TiledImage): (r: TiledImage)
    requires img.pathBuilder.Plate?
    ensures r == img.(attributes := r.attributes)
    ensures r.attributes.Some?
    ensures "acquisition" in r.attributes.value
    ensures r.attributes.value["acquisition"] == IntToString(img.pathBuilder.acquisitionId)
    ensures img.attributes.None? ==> r.attributes.value.Keys == {"acquisition"}
    ensures img.attributes.Some? ==>
              && r.attributes.value.Keys == img.attributes.value.Keys + {"acquisition"}
              && forall k :: k in img.attributes.value && k != "acquisition" ==>
                   r.attributes.value[k] == img.attributes.value[k]
  {
    var before := if img.attributes.None? then map[] else img.attributes.value;
    img.(attributes := Some(before["acquisition" := IntToString(img.pathBuilder.acquisitionId)]))
  }

  /** `_add_acquisition_attributes` */
  function AddAcquisitionAttributes(imgs: seq<TiledImage>): (r: seq<TiledImage>)
    ensures |r| == |imgs|
    ensures |AcquisitionIds(imgs)| <= 1 ==> r == imgs
    ensures forall i :: 0 <= i < |imgs| && imgs[i].pathBuilder.Flat? ==> r[i] == imgs[i]
    ensures forall i :: 0 <= i < |imgs| ==> r[i] == imgs[i].(attributes := r[i].attributes)
    ensures |AcquisitionIds(imgs)| >= 2 ==>
              forall i :: 0 <= i < |imgs| && imgs[i].pathBuilder.Plate? ==> r[i] == WithAcquisition(imgs[i])
  {
    if |AcquisitionIds(imgs)| <= 1 then imgs
    else seq(|imgs|, i requires 0 <= i < |imgs| =>
               if imgs[i].pathBuilder.Plate? then WithAcquisition(imgs[i]) else imgs[i])
  }

  /**
   * In a mixed batch, two plate images from different acquisitions end up
   * with different `acquisition` attributes, and two from the same one with
   * the same attribute.
   */
  lemma AcquisitionTagsSeparate(imgs: seq<TiledImage>, i: nat, j: nat)
    requires i < |imgs| && j < |imgs|
    requires imgs[i].pathBuilder.Plate? && imgs[j].pathBuilder.Plate?
    requires |AcquisitionIds(imgs)| >= 2
    ensures var r := AddAcquisitionAttributes(imgs);
            && r[i].attributes.Some? && "acquisition" in r[i].attributes.value
            && r[j].attributes.Some? && "acquisition" in r[j].attributes.value
            && (r[i].attributes.value["acquisition"] == r[j].attributes.value["acquisition"]
                <==> imgs[i].pathBuilder.acquisitionId == imgs[j].pathBuilder.acquisitionId)
  {
    IntToStringInjective(imgs[i].pathBuilder.acquisitionId, imgs[j].pathBuilder.acquisitionId);
  }

  /** Adding flat images to a batch does not change its acquisition ids. */
  lemma {:induction false} FlatImagesAddNoIds(imgs: seq<TiledImage>, flat: seq<TiledImage>)
    requires forall i :: 0 <= i < |flat| ==> flat[i].pathBuilder.Flat?
    ensures AcquisitionIds(imgs + flat) == AcquisitionIds(imgs)
  {
    var both := imgs + flat;
    forall a
      ensures a in AcquisitionIds(both) <==> a in AcquisitionIds(imgs)
    {
      if a in AcquisitionIds(both) {
        var i :| 0 <= i < |both| && both[i].pathBuilder.Plate? && both[i].pathBuilder.acquisitionId == a;
        assert i < |imgs| && imgs[i] == both[i];
      }
      if a in AcquisitionIds(imgs) {
        var i :| 0 <= i < |imgs| && imgs[i].pathBuilder.Plate? && imgs[i].pathBuilder.acquisitionId == a;
        assert both[i] == imgs[i];
      }
    }
  }

  /** The global compute configuration every unit carries. */
  datatype ComputeOptions = ComputeOptions(
    tilingMode: string,
    swapXY: bool,
    invertX: bool,
    invertY: bool,
    numLevels: int,
    maxXYChunk: int,
    zChunk: int,
    cChunk: int,
    tChunk: int)

  /** Where a pickled image is stored: a scratch directory and a file name in it. */
  datatype RecordPath = RecordPath(dir: string, name: string)

  datatype InitArgs = InitArgs(recordPath: RecordPath, overwrite: bool, options: ComputeOptions)

  /** One element of the parallelization list. */
  datatype Unit = Unit(zarrUrl: string, initArgs: InitArgs)

  /** A pickled image: where it was written and what was written. */
  datatype Record = Record(path: RecordPath, image: TiledImage)

  datatype InitOutcome = InitOutcome(scratchDir: string, records: seq<Record>, units: seq<Unit>)

  const DefaultScratchName := "_tmp_coverter_dir"

  /** `tmp_dir_name if tmp_dir_name else "_tmp_coverter_dir"`: `None` and `""` fall back. */
  function ScratchName(tmpDirName: Option<string>): (name: string)
    ensures name != ""
    ensures tmpDirName.None? || tmpDirName == Some("") ==> name == DefaultScratchName
    ensures tmpDirName.Some? && tmpDirName.value != "" ==> name == tmpDirName.value
  {
    if tmpDirName.Some? && tmpDirName.value != "" then tmpDirName.value else DefaultScratchName
  }

  /** `f"{uuid4()}.pkl"` for the `i`-th image, `uuids` standing in for the generator. */
  function RecordName(uuids: nat -> string, i: nat): string {
    uuids(i) + ".pkl"
  }

  /**
   * `build_parallelization_list`: annotate the batch, then one record and one
   * unit per image, in order.
   */
  function BuildParallelizationList(
    zarrDir: string, imgs: seq<TiledImage>, overwrite: bool, options: ComputeOptions,
    tmpDirName: Option<string>, uuids: nat -> string): (r: InitOutcome)
    ensures r.scratchDir == JoinPath(zarrDir, ScratchName(tmpDirName))
    ensures |r.records| == |r.units| == |imgs|
    ensures forall i :: 0 <= i < |imgs| ==>
              && r.units[i].zarrUrl == zarrDir
              && r.units[i].initArgs.overwrite == overwrite
              && r.units[i].initArgs.options == options
              && r.units[i].initArgs.recordPath == r.records[i].path
              && r.records[i].path == RecordPath(r.scratchDir, RecordName(uuids, i))
              && r.records[i].image == AddAcquisitionAttributes(imgs)[i]
  {
    var dir := JoinPath(zarrDir, ScratchName(tmpDirName));
    var annotated := AddAcquisitionAttributes(imgs);
    var paths := seq(|imgs|, i requires 0 <= i => RecordPath(dir, RecordName(uuids, i)));
    InitOutcome(dir,
                seq(|imgs|, i requires 0 <= i < |imgs| => Record(paths[i], annotated[i])),
                seq(|imgs|, i requires 0 <= i < |imgs| => Unit(zarrDir, InitArgs(paths[i], overwrite, options))))
  }

  /** Distinct uuids name distinct record files. */
  lemma RecordNameInjective(uuids: nat -> string, i: nat, j: nat)
    ensures RecordName(uuids, i) == RecordName(uuids, j) ==> uuids(i) == uuids(j)
  {
    var a, b := uuids(i), uuids(j);
    if RecordName(uuids, i) == RecordName(uuids, j) {
      assert a == (a + ".pkl")[..|a|];
      assert b == (b + ".pkl")[..|b|];
    }
  }

  /** Distinct uuids give every unit its own record. */
  lemma RecordPathsDistinct(
    zarrDir: string, imgs: seq<TiledImage>, overwrite: bool, options: ComputeOptions,
    tmpDirName: Option<string>, uuids: nat -> string, i: nat, j: nat)
    requires i < |imgs| && j < |imgs| && i != j
    requires uuids(i) != uuids(j)
    ensures var r := BuildParallelizationList(zarrDir, imgs, overwrite, options, tmpDirName, uuids);
            r.units[i].initArgs.recordPath != r.units[j].initArgs.recordPath
  {
    RecordNameInjective(uuids, i, j);
  }
}

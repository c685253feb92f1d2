/** The finalization handoff `create_api_upload_worker` (util/api.py): the
    combined result of the two legs, keyed `'google_drive'` and `'s3'`, is
    unpacked into the fields of the catalog-update worker. */
module Api {

  import opened Common
  import opened PyDict
  import WaiterWorker

  /** The constructor arguments of `APIUpdateWorker`. */
  datatype ApiUpdateWorker = ApiUpdateWorker(
    fileId: FileId,
    name: string,
    categoryList: seq<string>,
    r2ModelPath: Value,
    r2ImagePathList: Value,
    googleDriveModelPath: Value,
    googleDriveImagePathList: Value,
    blenderVersion: string,
    renderEngine: string)

  /** `result[key]`, raising KeyError for a missing key. */
  function Subscript(result: Dict<Tuple>, key: string): (r: Outcome<Tuple>)
    ensures r.Ok? <==> Contains(result, key)
    ensures r.Ok? ==> r.value == Get(result, key)
    ensures r.Raised? ==> r.error == KeyError(key)
  {
    if Contains(result, key) then Ok(Get(result, key)) else Raised(KeyError(key))
  }

  /** Both entries are present and both are pairs. */
  predicate WellFormed(result: Dict<Tuple>)
  {
    Contains(result, "google_drive") && |Get(result, "google_drive")| == 2 &&
    Contains(result, "s3") && |Get(result, "s3")| == 2
  }

  /** `create_api_upload_worker(...)`. The Drive entry is looked up and
      unpacked first, then the S3 entry; the first missing key raises
      KeyError and the first entry that is not a pair raises ValueError. On
      success the Drive pair gives the two `google_drive_*` fields, the S3
      pair the two `r2_*` fields, and the metadata passes through. */
  function CreateApiUploadWorker(fileId: FileId, name: string, categoryList: seq<string>,
                                 blenderVersion: string, renderEngine: string,
                                 result: Dict<Tuple>): (r: Outcome<ApiUpdateWorker>)
    ensures r.Ok? <==> WellFormed(result)
    ensures !Contains(result, "google_drive") ==> r == Raised(KeyError("google_drive"))
    ensures Contains(result, "google_drive") && |Get(result, "google_drive")| != 2 ==>
      r.Raised? && r.error.ValueError?
    ensures Contains(result, "google_drive") && |Get(result, "google_drive")| == 2 && !Contains(result, "s3") ==>
      r == Raised(KeyError("s3"))
    ensures Contains(result, "google_drive") && |Get(result, "google_drive")| == 2 &&
            Contains(result, "s3") && |Get(result, "s3")| != 2 ==>
      r.Raised? && r.error.ValueError?
    ensures r.Ok? ==>
      && r.value.googleDriveModelPath == Get(result, "google_drive")[0]
      && r.value.googleDriveImagePathList == Get(result, "google_drive")[1]
      && r.value.r2ModelPath == Get(result, "s3")[0]
      && r.value.r2ImagePathList == Get(result, "s3")[1]
      && r.value.fileId == fileId && r.value.name == name && r.value.categoryList == categoryList
      && r.value.blenderVersion == blenderVersion && r.value.renderEngine == renderEngine
  {
    var drive :- Subscript(result, "google_drive");
    var drivePair :- Unpack2(drive);
    var s3 :- Subscript(result, "s3");
    var s3Pair :- Unpack2(s3);
    Ok(ApiUpdateWorker(fileId, name, categoryList, s3Pair.0, s3Pair.1,
                       drivePair.0, drivePair.1, blenderVersion, renderEngine))
  }

  /** Entries other than `'google_drive'` and `'s3'`, and the order of the
      entries, do not affect the outcome. */
  lemma OnlyTwoEntriesMatter(fileId: FileId, name: string, categoryList: seq<string>,
                             blenderVersion: string, renderEngine: string,
                             result1: Dict<Tuple>, result2: Dict<Tuple>)
    requires Lookup(result1, "google_drive") == Lookup(result2, "google_drive")
    requires Lookup(result1, "s3") == Lookup(result2, "s3")
    ensures CreateApiUploadWorker(fileId, name, categoryList, blenderVersion, renderEngine, result1)
         == CreateApiUploadWorker(fileId, name, categoryList, blenderVersion, renderEngine, result2)
  {
  }

  /** From the aggregator to the handoff: with an S3 slot and a Drive slot
      registered and each delivering a pair, in either order, the single
      combined result builds the update worker from both pairs. */
  lemma JoinThenHandoff(fileId: FileId, name: string, categoryList: seq<string>,
                        blenderVersion: string, renderEngine: string,
                        s3Leg: WaiterWorker.Leg, driveLeg: WaiterWorker.Leg,
                        s3: Tuple, drive: Tuple, s3First: bool)
    requires s3Leg.fileId == fileId && driveLeg.fileId == fileId
    requires |s3| == 2 && |drive| == 2
    ensures var w0 := WaiterWorker.Initial(fileId, name, categoryList, blenderVersion, renderEngine);
      var regs := [Item("s3", s3Leg), Item("google_drive", driveLeg)];
      var ds := if s3First then [Item("s3", s3), Item("google_drive", drive)]
                else [Item("google_drive", drive), Item("s3", s3)];
      && WaiterWorker.RegisterAll(w0, regs).Ok?
      && var events := WaiterWorker.DeliverResults(WaiterWorker.RegisterAll(w0, regs).value, ds).events;
      && |events| == 1 && events[0].Result?
      && CreateApiUploadWorker(fileId, name, categoryList, blenderVersion, renderEngine, events[0].combined)
         == Ok(ApiUpdateWorker(fileId, name, categoryList, s3[0], s3[1], drive[0], drive[1],
                               blenderVersion, renderEngine))
  {
    var regs := [Item("s3", s3Leg), Item("google_drive", driveLeg)];
    var ds := if s3First then [Item("s3", s3), Item("google_drive", drive)]
              else [Item("google_drive", drive), Item("s3", s3)];
    assert Keys(regs) == ["s3", "google_drive"];
    if s3First {
      assert Keys(ds) == Keys(regs);
    } else {
      assert Keys(ds) == ["google_drive", "s3"];
      assert multiset(Keys(ds)) == multiset(Keys(regs));
    }
    WaiterWorker.JoinFiresOnce(fileId, name, categoryList, blenderVersion, renderEngine, regs, ds);
    assert IndexOf(ds, "s3") == if s3First then 0 else 1;
    assert IndexOf(ds, "google_drive") == if s3First then 1 else 0;
  }
}

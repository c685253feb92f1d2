/** The older two-slot join `UploadWaiter` (util/upload_waiter.py): it waits
    for one object-store (S3/R2) result and one Google Drive result, then
    sends the confirmation to the catalog API. The HTTP call is an abstract
    step whose reply is an input; signals are an append-only event log. */
module TwoSlotWaiter {

  import opened Common

  /** The JSON body `_send_confirm` posts. */
  datatype ConfirmPayload = ConfirmPayload(
    name: string,
    categoryList: seq<string>,
    r2ModelPath: Value,
    r2ImagePathList: Value,
    googleDriveModelPath: Value,
    googleDriveImagePathList: Value,
    blenderVersion: string,
    renderEngine: string)

  /** How the catalog call ends: a created model id, or whatever the post,
      `raise_for_status`, the JSON decoding or the `'id'` lookup raised. */
  datatype ServerReply = Created(modelId: Value) | Failed(error: Exception)

  /** The confirmation sent, and the three signals of `UploadWaiterSignals`. */
  datatype Event =
    | Confirm(payload: ConfirmPayload)
    | Result(modelId: Value)
    | Error(error: Exception)
    | Finished

  /** The waiter's attributes. The four result attributes are not set by
      `__init__`; `None` stands for an attribute not yet assigned. */
  datatype Join = Join(
    fileId: FileId,
    name: string,
    categoryList: seq<string>,
    blenderVersion: string,
    renderEngine: string,
    count: int,
    r2FilePath: Option<Value>,
    r2ImageFileList: Option<Value>,
    googleDriveFileId: Option<Value>,
    googleDriveFileIdList: Option<Value>,
    events: seq<Event>)

  /** The state after a handler, and what it raised, if anything. */
  datatype Handled = Handled(after: Join, raised: Option<Exception>)

  /** `UploadWaiter(...)`, whose counter defaults to 2. */
  function Initial(fileId: FileId, name: string, categoryList: seq<string>,
                   blenderVersion: string, renderEngine: string, count: int := 2): Join
  {
    Join(fileId, name, categoryList, blenderVersion, renderEngine, count, None, None, None, None, [])
  }

  predicate AllSet(j: Join)
  {
    j.r2FilePath.Some? && j.r2ImageFileList.Some? && j.googleDriveFileId.Some? && j.googleDriveFileIdList.Some?
  }

  /** The attribute whose read fails first while the JSON body is built. */
  function FirstMissing(j: Join): string
    requires !AllSet(j)
  {
    if j.r2FilePath.None? then "r2_file_path"
    else if j.r2ImageFileList.None? then "r2_image_file_list"
    else if j.googleDriveFileId.None? then "google_drive_file_id"
    else "google_drive_file_id_list"
  }

  function TerminalOf(reply: ServerReply): Event
  {
    match reply
    case Created(id) => Result(id)
    case Failed(e) => Error(e)
  }

  /** `_send_confirm()`. With every result attribute set, the confirmation is
      sent with the attributes under their API names, then the reply's result
      or error is emitted; an unset attribute raises AttributeError inside the
      `try`, so only the error is emitted. `finished` always comes last. */
  function AfterConfirm(j: Join, reply: ServerReply): (r: Join)
    ensures r == j.(events := r.events)
    ensures AllSet(j) ==>
      && |r.events| == |j.events| + 3 && r.events[..|j.events|] == j.events
      && r.events[|j.events|].Confirm?
      && r.events[|j.events| + 1] == TerminalOf(reply)
      && r.events[|j.events| + 2] == Finished
    ensures AllSet(j) ==> var p := r.events[|j.events|].payload;
      && p.r2ModelPath == j.r2FilePath.value
      && p.r2ImagePathList == j.r2ImageFileList.value
      && p.googleDriveModelPath == j.googleDriveFileId.value
      && p.googleDriveImagePathList == j.googleDriveFileIdList.value
      && p.name == j.name && p.categoryList == j.categoryList
      && p.blenderVersion == j.blenderVersion && p.renderEngine == j.renderEngine
    ensures !AllSet(j) ==> r.events == j.events + [Error(AttributeError(FirstMissing(j))), Finished]
  {
    if AllSet(j) then
      var payload := ConfirmPayload(j.name, j.categoryList,
        j.r2FilePath.value, j.r2ImageFileList.value,
        j.googleDriveFileId.value, j.googleDriveFileIdList.value,
        j.blenderVersion, j.renderEngine);
      j.(events := j.events + [Confirm(payload), TerminalOf(reply), Finished])
    else
      j.(events := j.events + [Error(AttributeError(FirstMissing(j))), Finished])
  }

  /** The number of result and error signals in a log. */
  function Terminals(es: seq<Event>): nat
  {
    if es == [] then 0
    else (if es[0].Result? || es[0].Error? then 1 else 0) + Terminals(es[1..])
  }

  /** `_send_confirm` emits exactly one of `result` or `error`, and `finished`
      once, last, in every case. */
  lemma ConfirmEndsOnce(j: Join, reply: ServerReply)
    ensures var added := AfterConfirm(j, reply).events[|j.events|..];
      && Terminals(added) == 1
      && added[|added| - 1] == Finished
      && Finished !in added[..|added| - 1]
  {
    var added := AfterConfirm(j, reply).events[|j.events|..];
    if AllSet(j) {
      assert added == [added[0], TerminalOf(reply), Finished];
      assert added[1..][1..] == [Finished];
      assert Terminals([Finished]) == 0;
    } else {
      assert added == [Error(AttributeError(FirstMissing(j))), Finished];
      assert added[1..] == [Finished];
      assert Terminals([Finished]) == 0;
    }
  }

  /** `receive_s3_upload_result(file_id, result)`: the counter goes down
      first, then the pair is unpacked into `r2_file_path` and
      `r2_image_file_list` (a tuple of another length raises ValueError with
      the counter already decremented); the confirmation is sent exactly when
      no result is awaited any more. */
  function OnS3Result(j: Join, result: Tuple, reply: ServerReply): (r: Handled)
    ensures r.after.count == j.count - 1
    ensures r.raised.Some? <==> |result| != 2
    ensures r.raised.Some? ==> r.raised.value.ValueError? && r.after == j.(count := j.count - 1)
    ensures r.raised.None? ==> r.after.r2FilePath == Some(result[0]) && r.after.r2ImageFileList == Some(result[1])
    ensures r.raised.None? && 0 < r.after.count ==>
      r.after == j.(count := j.count - 1, r2FilePath := Some(result[0]), r2ImageFileList := Some(result[1]))
    ensures r.raised.None? && r.after.count <= 0 ==>
      r.after == AfterConfirm(j.(count := j.count - 1, r2FilePath := Some(result[0]), r2ImageFileList := Some(result[1])), reply)
  {
    var counted := j.(count := j.count - 1);
    match Unpack2(result)
    case Raised(e) => Handled(counted, Some(e))
    case Ok((path, images)) =>
      var stored := counted.(r2FilePath := Some(path), r2ImageFileList := Some(images));
      if 0 < stored.count then Handled(stored, None) else Handled(AfterConfirm(stored, reply), None)
  }

  /** `receive_google_drive_upload_result(file_id, result)`: as for S3, with
      `google_drive_file_id` and `google_drive_file_id_list`. */
  function OnDriveResult(j: Join, result: Tuple, reply: ServerReply): (r: Handled)
    ensures r.after.count == j.count - 1
    ensures r.raised.Some? <==> |result| != 2
    ensures r.raised.Some? ==> r.raised.value.ValueError? && r.after == j.(count := j.count - 1)
    ensures r.raised.None? ==> r.after.googleDriveFileId == Some(result[0]) && r.after.googleDriveFileIdList == Some(result[1])
    ensures r.raised.None? && 0 < r.after.count ==>
      r.after == j.(count := j.count - 1, googleDriveFileId := Some(result[0]), googleDriveFileIdList := Some(result[1]))
    ensures r.raised.None? && r.after.count <= 0 ==>
      r.after == AfterConfirm(j.(count := j.count - 1, googleDriveFileId := Some(result[0]), googleDriveFileIdList := Some(result[1])), reply)
  {
    var counted := j.(count := j.count - 1);
    match Unpack2(result)
    case Raised(e) => Handled(counted, Some(e))
    case Ok((id, ids)) =>
      var stored := counted.(googleDriveFileId := Some(id), googleDriveFileIdList := Some(ids));
      if 0 < stored.count then Handled(stored, None) else Handled(AfterConfirm(stored, reply), None)
  }

  /** With the default counter, one S3 result and one Drive result, in either
      order: the first emits nothing, the second sends exactly one
      confirmation carrying all four stored values, followed by the reply's
      result or error and `finished`. */
  lemma BothResultsConfirmOnce(fileId: FileId, name: string, categoryList: seq<string>,
                               blenderVersion: string, renderEngine: string,
                               s3: Tuple, drive: Tuple, reply1: ServerReply, reply2: ServerReply, s3First: bool)
    requires |s3| == 2 && |drive| == 2
    ensures var j0 := Initial(fileId, name, categoryList, blenderVersion, renderEngine);
      var first := if s3First then OnS3Result(j0, s3, reply1) else OnDriveResult(j0, drive, reply1);
      var second := if s3First then OnDriveResult(first.after, drive, reply2) else OnS3Result(first.after, s3, reply2);
      && first.raised.None? && first.after.events == []
      && second.raised.None? && AllSet(second.after)
      && second.after.events == [Confirm(ConfirmPayload(name, categoryList, s3[0], s3[1], drive[0], drive[1],
                                                         blenderVersion, renderEngine)),
                                  TerminalOf(reply2), Finished]
  {
    var j0 := Initial(fileId, name, categoryList, blenderVersion, renderEngine);
    var first := if s3First then OnS3Result(j0, s3, reply1) else OnDriveResult(j0, drive, reply1);
    var second := if s3First then OnDriveResult(first.after, drive, reply2) else OnS3Result(first.after, s3, reply2);
    assert first.after.count == 1;
    var stored := second.after.(events := []);
    assert AllSet(stored);
    assert second.after.events[0].payload ==
      ConfirmPayload(name, categoryList, s3[0], s3[1], drive[0], drive[1], blenderVersion, renderEngine);
  }

  /** `UploadWaiter`: its attributes and the signals emitted so far. */
  class UploadWaiter {
    const fileId: FileId
    const name: string
    const categoryList: seq<string>
    const blenderVersion: string
    const renderEngine: string
    var count: int
    var r2FilePath: Option<Value>
    var r2ImageFileList: Option<Value>
    var googleDriveFileId: Option<Value>
    var googleDriveFileIdList: Option<Value>
    var events: seq<Event>

    function State(): Join
      reads this
    {
      Join(fileId, name, categoryList, blenderVersion, renderEngine, count,
           r2FilePath, r2ImageFileList, googleDriveFileId, googleDriveFileIdList, events)
    }

    constructor (fileId: FileId, name: string, categoryList: seq<string>,
                 blenderVersion: string, renderEngine: string, count: int := 2)
      ensures State() == Initial(fileId, name, categoryList, blenderVersion, renderEngine, count)
    {
      this.fileId := fileId;
      this.name := name;
      this.categoryList := categoryList;
      this.blenderVersion := blenderVersion;
      this.renderEngine := renderEngine;
      this.count := count;
      r2FilePath, r2ImageFileList := None, None;
      googleDriveFileId, googleDriveFileIdList := None, None;
      events := [];
    }

    method SendConfirm(reply: ServerReply)
      modifies this
      ensures State() == AfterConfirm(old(State()), reply)
    {
      if r2FilePath.Some? && r2ImageFileList.Some? && googleDriveFileId.Some? && googleDriveFileIdList.Some? {
        var payload := ConfirmPayload(name, categoryList,
          r2FilePath.value, r2ImageFileList.value,
          googleDriveFileId.value, googleDriveFileIdList.value,
          blenderVersion, renderEngine);
        events := events + [Confirm(payload), TerminalOf(reply)];
      } else {
        events := events + [Error(AttributeError(FirstMissing(State())))];
      }
      events := events + [Finished];
    }

    /** `receive_s3_upload_result`; `fileId` is only printed by the source. */
    method ReceiveS3UploadResult(fileId: FileId, result: Tuple, reply: ServerReply) returns (raised: Option<Exception>)
      modifies this
      ensures State() == OnS3Result(old(State()), result, reply).after
      ensures raised == OnS3Result(old(State()), result, reply).raised
    {
      count := count - 1;
      var unpacked := Unpack2(result);
      if unpacked.Raised? {
        return Some(unpacked.error);
      }
      r2FilePath, r2ImageFileList := Some(unpacked.value.0), Some(unpacked.value.1);
      raised := None;
      if count > 0 {
        return;
      }
      SendConfirm(reply);
    }

    /** `receive_google_drive_upload_result`; `fileId` is only printed by the source. */
    method ReceiveGoogleDriveUploadResult(fileId: FileId, result: Tuple, reply: ServerReply) returns (raised: Option<Exception>)
      modifies this
      ensures State() == OnDriveResult(old(State()), result, reply).after
      ensures raised == OnDriveResult(old(State()), result, reply).raised
    {
      count := count - 1;
      var unpacked := Unpack2(result);
      if unpacked.Raised? {
        return Some(unpacked.error);
      }
      googleDriveFileId, googleDriveFileIdList := Some(unpacked.value.0), Some(unpacked.value.1);
      raised := None;
      if count > 0 {
        return;
      }
      SendConfirm(reply);
    }
  }
}

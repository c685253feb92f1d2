/** The task and configuration tables of `QtDBObject` (db/_connection.py):
    the SQLite table `file`, keyed by the task id, and the table `config`,
    keyed by name, modelled as maps. */
module TaskDb {

  import opened Common

  /** The text of a JSON column as `json.dumps` wrote it; `json.loads` gives
      the value back. The encoding itself is not modelled. */
  datatype JsonText = JsonText(decoded: Value)

  function Dumps(v: Value): JsonText
  {
    JsonText(v)
  }

  function Loads(t: JsonText): Value
  {
    t.decoded
  }

  /** A row of `file`, without its key `id`. */
  datatype FileRow = FileRow(
    name: string,
    path: string,
    blenderVersion: string,
    renderEngine: string,
    category1: string,
    category2: string,
    category3: string,
    imageList: JsonText,
    taskStatus: string,
    taskProgress: int,
    taskMessage: string)

  type FileTable = map<FileId, FileRow>
  type ConfigTable = map<string, JsonText>

  /** `create_file(file_id, file_path, file_name, ...)`: the INSERT. The
      name goes to `name` and the path to `path` although the path comes
      first among the arguments; the image list is stored as JSON and the
      task starts "pending" at 0 with the message "Pending". An id already
      present violates the primary key and changes nothing. */
  function InsertFile(files: FileTable, id: FileId, filePath: string, fileName: string,
                      category1: string, category2: string, category3: string,
                      blenderVersion: string, renderEngine: string, imageList: seq<string>): (r: Outcome<FileTable>)
    ensures r.Raised? <==> id in files
    ensures r.Raised? ==> r.error.IntegrityError?
    ensures r.Ok? ==> r.value.Keys == files.Keys + {id}
    ensures r.Ok? ==> forall k :: k in files ==> r.value[k] == files[k]
    ensures r.Ok? ==> var row := r.value[id];
      && row.name == fileName && row.path == filePath
      && row.blenderVersion == blenderVersion && row.renderEngine == renderEngine
      && row.category1 == category1 && row.category2 == category2 && row.category3 == category3
      && Loads(row.imageList) == TextList(imageList)
      && row.taskStatus == "pending" && row.taskProgress == 0 && row.taskMessage == "Pending"
  {
    if id in files then Raised(IntegrityError("UNIQUE constraint failed: file.id"))
    else
      Ok(files[id := FileRow(fileName, filePath, blenderVersion, renderEngine,
                             category1, category2, category3, Dumps(TextList(imageList)),
                             "pending", 0, "Pending")])
  }

  /** `set_file_progress_message(file_id, progress, status)`: the UPDATE sets
      `task_progress` and `task_message` of the matching row and nothing
      else; an unknown id matches no row. */
  function UpdateProgressMessage(files: FileTable, id: FileId, progress: int, status: string): (r: FileTable)
    ensures r.Keys == files.Keys
    ensures forall k :: k in files && k != id ==> r[k] == files[k]
    ensures id in files ==>
      && r[id].taskProgress == progress && r[id].taskMessage == status
      && r[id].(taskProgress := files[id].taskProgress, taskMessage := files[id].taskMessage) == files[id]
    ensures id !in files ==> r == files
  {
    if id in files then files[id := files[id].(taskProgress := progress, taskMessage := status)] else files
  }

  /** `set_file_status(file_id, status)`: only `task_status` of the matching row. */
  function UpdateStatus(files: FileTable, id: FileId, status: string): (r: FileTable)
    ensures r.Keys == files.Keys
    ensures forall k :: k in files && k != id ==> r[k] == files[k]
    ensures id in files ==> r[id].taskStatus == status && r[id].(taskStatus := files[id].taskStatus) == files[id]
    ensures id !in files ==> r == files
  {
    if id in files then files[id := files[id].(taskStatus := status)] else files
  }

  /** `save_config(key, value)`: an upsert. */
  function UpsertConfig(config: ConfigTable, key: string, value: Value): (r: ConfigTable)
    ensures r.Keys == config.Keys + {key}
    ensures Loads(r[key]) == value
    ensures forall k :: k in config && k != key ==> r[k] == config[k]
  {
    config[key := Dumps(value)]
  }

  /** One tuple of `list_files`: the id as a ULID, the columns in SELECT
      order, the image list decoded. */
  datatype FileTuple = FileTuple(
    id: FileId,
    name: string,
    path: string,
    blenderVersion: string,
    renderEngine: string,
    category1: string,
    category2: string,
    category3: string,
    imageList: Value,
    taskStatus: string,
    taskProgress: int,
    taskMessage: string)

  /** The tuple `list_files` evidently means to yield for a row: every column
      in SELECT order, with `image_list` decoded. */
  function Listed(id: FileId, row: FileRow): (t: FileTuple)
    ensures t.id == id && t.imageList == Loads(row.imageList)
  {
    FileTuple(id, row.name, row.path, row.blenderVersion, row.renderEngine,
              row.category1, row.category2, row.category3, Loads(row.imageList),
              row.taskStatus, row.taskProgress, row.taskMessage)
  }

  /** A row written by `create_file` lists back as what was written, with
      the image list decoded to the list that was stored. */
  lemma CreatedRowListsBack(files: FileTable, id: FileId, filePath: string, fileName: string,
                            category1: string, category2: string, category3: string,
                            blenderVersion: string, renderEngine: string, imageList: seq<string>)
    requires id !in files
    ensures var r := InsertFile(files, id, filePath, fileName, category1, category2, category3,
                                blenderVersion, renderEngine, imageList);
      && r.Ok?
      && Listed(id, r.value[id]) == FileTuple(id, fileName, filePath, blenderVersion, renderEngine,
                                              category1, category2, category3, TextList(imageList),
                                              "pending", 0, "Pending")
  {
  }

  /** Every stored `image_list` decodes to a list of strings. */
  predicate ImageListsAreLists(files: FileTable)
  {
    forall k :: k in files ==> Loads(files[k].imageList).TextList?
  }

  /** Every operation on `file` keeps the image lists decodable as lists, so
      each listed tuple carries a list of image paths. */
  lemma {:induction false} OperationsKeepImageLists(files: FileTable, id: FileId, filePath: string, fileName: string,
                                 category1: string, category2: string, category3: string,
                                 blenderVersion: string, renderEngine: string, imageList: seq<string>,
                                 progress: int, status: string)
    requires ImageListsAreLists(files)
    ensures var r := InsertFile(files, id, filePath, fileName, category1, category2, category3,
                                blenderVersion, renderEngine, imageList);
      r.Ok? ==> ImageListsAreLists(r.value)
    ensures ImageListsAreLists(UpdateProgressMessage(files, id, progress, status))
    ensures ImageListsAreLists(UpdateStatus(files, id, status))
    ensures forall k :: k in files ==> Listed(k, files[k]).imageList.TextList?
  {
  }

  /** The tuple the loop of `list_files` builds as written. */
  datatype AsWrittenTuple = AsWrittenTuple(
    id: FileId,
    name: string,
    path: string,
    blenderVersion: string,
    renderEngine: string,
    category1: string,
    category2: string,
    category3: string,
    imageListText: JsonText,
    taskStatus: string,
    taskProgress: int,
    decodedMessage: Value)

  /** What the loop of `list_files` computes for a row as written:
      `for file_id, *cols, image_list in ...` binds `image_list` to the LAST
      selected column, `task_message`, so `json.loads` is applied to the
      message, and the stored JSON text of `image_list` lands, undecoded,
      among `cols`. `loadsText` is `json.loads` on a plain string. */
  function ListedAsWritten(id: FileId, row: FileRow, loadsText: string -> Outcome<Value>): (r: Outcome<AsWrittenTuple>)
    ensures r.Raised? <==> loadsText(row.taskMessage).Raised?
    ensures r.Ok? ==> r.value.decodedMessage == loadsText(row.taskMessage).value
    ensures r.Ok? ==> r.value.imageListText == row.imageList
  {
    match loadsText(row.taskMessage)
    case Raised(e) => Raised(e)
    case Ok(v) => Ok(AsWrittenTuple(id, row.name, row.path, row.blenderVersion, row.renderEngine,
                                    row.category1, row.category2, row.category3, row.imageList,
                                    row.taskStatus, row.taskProgress, v))
  }

  /** "Pending" is not a JSON document, so as written `list_files` raises on
      every row `create_file` has written and the user has not yet updated. */
  lemma ListFilesAsWrittenRaisesOnNewRows(files: FileTable, id: FileId, filePath: string, fileName: string,
                                          category1: string, category2: string, category3: string,
                                          blenderVersion: string, renderEngine: string, imageList: seq<string>,
                                          loadsText: string -> Outcome<Value>)
    requires id !in files
    requires loadsText("Pending").Raised?
    ensures var r := InsertFile(files, id, filePath, fileName, category1, category2, category3,
                                blenderVersion, renderEngine, imageList);
      r.Ok? && ListedAsWritten(id, r.value[id], loadsText).Raised?
  {
  }

  /** The two tables of `QtDBObject`. */
  class Database {
    var files: FileTable
    var config: ConfigTable

    /** `QtDBObject()`: `CREATE TABLE IF NOT EXISTS` keeps whatever the
        database file already holds. */
    constructor (existingFiles: FileTable, existingConfig: ConfigTable)
      ensures files == existingFiles && config == existingConfig
    {
      files := existingFiles;
      config := existingConfig;
    }

    method CreateFile(fileId: FileId, filePath: string, fileName: string,
                         category1: string, category2: string, category3: string,
                         blenderVersion: string, renderEngine: string, imageList: seq<string>)
      returns (raised: Option<Exception>)
      modifies this
      ensures var r := InsertFile(old(files), fileId, filePath, fileName, category1, category2, category3,
                                  blenderVersion, renderEngine, imageList);
        && (raised.Some? <==> r.Raised?)
        && (raised.Some? ==> raised.value == r.error)
        && files == (if r.Ok? then r.value else old(files))
      ensures config == old(config)
    {
      if fileId in files {
        return Some(IntegrityError("UNIQUE constraint failed: file.id"));
      }
      files := files[fileId := FileRow(fileName, filePath, blenderVersion, renderEngine,
                                       category1, category2, category3, Dumps(TextList(imageList)),
                                       "pending", 0, "Pending")];
      raised := None;
    }

    method SetFileProgressMessage(fileId: FileId, progress: int, status: string)
      modifies this
      ensures files == UpdateProgressMessage(old(files), fileId, progress, status)
      ensures config == old(config)
    {
      if fileId in files {
        files := files[fileId := files[fileId].(taskProgress := progress, taskMessage := status)];
      }
    }

    method SetFileStatus(fileId: FileId, status: string)
      modifies this
      ensures files == UpdateStatus(old(files), fileId, status)
      ensures config == old(config)
    {
      if fileId in files {
        files := files[fileId := files[fileId].(taskStatus := status)];
      }
    }

    method SaveConfig(key: string, value: Value)
      modifies this
      ensures config == UpsertConfig(old(config), key, value)
      ensures files == old(files)
    {
      config := config[key := Dumps(value)];
    }

    /** `list_files()`: one tuple per stored row, in an order the model does
        not fix (the SELECT has no ORDER BY), each the row's columns with
        the image list decoded. */
    method ListFiles() returns (rows: seq<FileTuple>)
      ensures |rows| == |files|
      ensures forall i :: 0 <= i < |rows| ==> rows[i].id in files && rows[i] == Listed(rows[i].id, files[rows[i].id])
      ensures forall i, j :: 0 <= i < j < |rows| ==> rows[i].id != rows[j].id
      ensures forall id :: id in files ==> exists i :: 0 <= i < |rows| && rows[i].id == id
    {
      rows := [];
      var remaining := files.Keys;
      while remaining != {}
        invariant remaining <= files.Keys
        invariant |rows| + |remaining| == |files|
        invariant forall i :: 0 <= i < |rows| ==> rows[i].id in files && rows[i].id !in remaining
        invariant forall i :: 0 <= i < |rows| ==> rows[i] == Listed(rows[i].id, files[rows[i].id])
        invariant forall i, j :: 0 <= i < j < |rows| ==> rows[i].id != rows[j].id
        invariant forall id :: id in files && id !in remaining ==> exists i :: 0 <= i < |rows| && rows[i].id == id
        decreases remaining
      {
        var id :| id in remaining;
        ghost var before := rows;
        rows := rows + [Listed(id, files[id])];
        remaining := remaining - {id};
        assert rows[|rows| - 1].id == id;
        assert forall i :: 0 <= i < |before| ==> rows[i] == before[i];
      }
    }
  }
}

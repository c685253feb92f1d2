# qt-uploader: upload bookkeeping in Dafny

This project models the bookkeeping of a desktop uploader. The uploader sends one 3D-model package to an S3-compatible store (R2) and to Google Drive, then confirms it with a catalog API. What is modelled:

- **The multi-slot aggregator** `UploadWaiterWorker` (module `WaiterWorker`). Each upload worker is registered under a slot. The aggregator combines the slots' progress reports into one percentage. It emits one combined result once every registered slot has delivered. An error ends the task at once.
- **The older two-slot join** `UploadWaiter` (module `TwoSlotWaiter`). It waits for one S3 result and one Drive result, then sends the confirmation. The HTTP call is an abstract step whose reply is an input.
- **The finalization handoff** `create_api_upload_worker` (module `Api`). A pure function from the combined result to the fields of the catalog-update worker.
- **The name sanitizer** and the field initialisation of the base upload worker (module `UploadBase`).
- **The Drive-link acceptance decision** of `check_and_accept` (module `DriveLink`).
- **The task and config tables** of `QtDBObject` (module `TaskDb`), as maps.

Qt signals become an append-only event log, held in a field of each class. Handlers run one at a time, as Qt's queued delivery runs them. Every class exposes its fields as a value through `State()`, or through the map fields themselves. Pure functions on that value carry the contracts. Each method ensures that its new state is that function of the old state.

Shared modelling choices:

- A Python dict with string keys is an insertion-ordered association list (module `PyDict`). Assigning to a present key overwrites its value in place. Assigning to a new key appends it.
- Progress values are reals. `math.ceil` is the function `Ceil`.
- A ULID is an opaque natural number (`FileId`). Its `bytes` encoding is a bijection, so the tables are keyed on the id directly.
- A tuple is a sequence of `Value`s. `a, b = t` raises ValueError unless `t` has two components (`Common.Unpack2`).
- A JSON column holds the encoded value (`TaskDb.JsonText`). Decoding gives the value back by construction.
- `\w` is ASCII letters, digits and `_` (`UploadBase.IsWordChar`).
- Exceptions are values of `Common.Exception`. A handler that can raise returns either an `Outcome` or the exception it raised.

The evidently intended behaviour is that each slot delivers its result once and the join fires exactly once. Where the code does something else, the model follows the code:

- A slot that delivers twice is counted twice, and its second delivery overwrites `result_dict[slot_id]` (`WaiterWorker.OnResult`). If the repeat comes before another slot has delivered, it fires the join early, and the combined result lacks the missing slot. `Api.CreateApiUploadWorker` would then raise KeyError. If the late slot delivers afterwards, the counter goes below zero and the combined result is emitted a second time (`WaiterWorker.RepeatBeforeJoinFiresEarly`). A repeat after every slot has delivered also goes below zero and emits again.
- The progress event carries the waiter's own `file_id`. The result and error events carry the `file_id` that arrived with the event.
- `UploadWaiter` never sets the four result attributes in `__init__`. If the confirmation runs before both results have arrived, building the request raises AttributeError inside the `try`. As a result, only `error` and `finished` are emitted (`TwoSlotWaiter.AfterConfirm`).
- The two-slot handlers decrement the counter before unpacking the result. A malformed result therefore still uses up a slot.
- Nothing guards against a second error: every error signal emits `error` and `finished` again (`WaiterWorker.OnError`).
- An error never decrements the counter, so the join still waits for the failed slot (`WaiterWorker.ErrorShortCircuits`).

## Model

| member | source | states |
|---|---|---|
| `Common.Unpack2` | util/upload_waiter.py:73 | two-target unpacking succeeds exactly for a pair and yields its components; otherwise it raises ValueError |
| `PyDict.Put` | worker/upload_waiter.py:59 | dict assignment: the key then maps to the new value and every other key's lookup is unchanged; a present key keeps its position, a new one is appended; distinct keys stay distinct |
| `UploadBase.Sanitize` | worker/_upload_base.py:25 | the substitution keeps the length of its input |
| `UploadBase.SanitizeAt` | worker/_upload_base.py:25 | at every position an allowed character is kept and any other becomes `_` |
| `UploadBase.SanitizeOutputAllowed` | worker/_upload_base.py:8 | every output character is a word character, `_`, `.`, space or `-` |
| `UploadBase.SanitizeFixedPoints` | worker/_upload_base.py:8 | a string is unchanged by the substitution exactly when all its characters are allowed |
| `UploadBase.SanitizeIdempotent` | worker/_upload_base.py:25 | sanitizing twice equals sanitizing once |
| `UploadBase.NewUploadWorker` | worker/_upload_base.py:24-31 | the same sanitizer is applied to the file name and the three categories, so they are safe and keep their lengths; path, versions, engine and image list are stored verbatim |
| `WaiterWorker.Ceil` | worker/upload_waiter.py:62 | the least integer not below its argument |
| `WaiterWorker.CombinedPercent` | worker/upload_waiter.py:62 | the emitted percentage is the ceiling of the mean of the reported values, and lies between the ceilings of the smallest and the largest of them |
| `WaiterWorker.Register` | worker/upload_waiter.py:35-40 | a worker of another task raises ValueError before any change; otherwise the worker is stored under the slot, other slots keep theirs, the counter rises by exactly one even for a taken slot, and nothing else changes |
| `WaiterWorker.OnResult` | worker/upload_waiter.py:46-54 | the counter drops by one and the payload is stored under the slot; the combined result is emitted exactly when the counter is at most zero afterwards, otherwise nothing is emitted; nothing else changes |
| `WaiterWorker.OnProgress` | worker/upload_waiter.py:57-64 | only the slot's progress entry changes, and `(file_id, ceil(mean of the reported values), message)` is emitted with the incoming message |
| `WaiterWorker.OnError` | worker/upload_waiter.py:67-70 | the error and then `finished` are emitted and nothing else changes; an empty error tuple raises IndexError at the print before either signal |
| `WaiterWorker.FirstReportIsItsCeiling` | worker/upload_waiter.py:59-62 | slots that never reported are not counted: a first report `p` is emitted as `ceil(p)` |
| `WaiterWorker.MeanWithin` | worker/upload_waiter.py:62 | the mean lies within every bound that holds of all values |
| `WaiterWorker.CeilMonotone` | worker/upload_waiter.py:62 | the ceiling is monotone |
| `WaiterWorker.CombinedPercentBounds` | worker/upload_waiter.py:59-63 | with all recorded values and the new one in [0,100], the emitted value is in [0,100] and between the ceilings of the smallest and largest recorded value |
| `WaiterWorker.RegisterAllCounts` | worker/upload_waiter.py:35-40 | registering N workers of the waiter's task always succeeds, raises the counter by N, repeated slots included, and changes nothing but workers and counter |
| `WaiterWorker.RepeatBeforeJoinFiresEarly` | worker/upload_waiter.py:46-54 | with two results awaited, a slot delivering twice fires the join early, carrying only that slot's latest payload; the other slot's later delivery drives the counter to -1 and emits a second combined result |
| `WaiterWorker.DeliverResultsJoin` | worker/upload_waiter.py:46-54 | while results are awaited nothing is emitted; the delivery that empties the counter emits one combined result holding every payload in delivery order |
| `WaiterWorker.JoinFiresOnce` | worker/upload_waiter.py:35-54 | N distinct slots registered and each delivering once, in any order, produce exactly one event: the combined result with all N payloads |
| `WaiterWorker.SuccessPathNeverFinishes` | worker/upload_waiter.py:46-54 | result deliveries never emit `finished` |
| `WaiterWorker.ErrorShortCircuits` | worker/upload_waiter.py:67-70 | whatever the counter, an error appends exactly `error, finished` and leaves counter, progress and results alone |
| `WaiterWorker.UploadWaiterWorker.constructor` | worker/upload_waiter.py:13-33 | counter 0, empty dicts, no events, metadata stored |
| `WaiterWorker.UploadWaiterWorker.AddUploadWorker` | worker/upload_waiter.py:35-43 | the new state is `Register` of the old one, unchanged when it raises |
| `WaiterWorker.UploadWaiterWorker.ReceiveResult` | worker/upload_waiter.py:46-54 | the new state is `OnResult` of the old one |
| `WaiterWorker.UploadWaiterWorker.ReceiveProgressMessage` | worker/upload_waiter.py:57-64 | the new state is `OnProgress` of the old one |
| `WaiterWorker.UploadWaiterWorker.ReceiveError` | worker/upload_waiter.py:67-70 | the new state is `OnError` of the old one, unchanged when it raises |
| `TwoSlotWaiter.AfterConfirm` | util/upload_waiter.py:39-67 | with all four results stored: the confirmation carries `r2_file_path` as `r2_model_path`, `r2_image_file_list` as `r2_image_path_list`, the Drive id as `google_drive_model_path`, the Drive id list as `google_drive_image_path_list` and passes the metadata through; the reply's result or error follows, then `finished`; with one missing: AttributeError, then `finished` |
| `TwoSlotWaiter.ConfirmEndsOnce` | util/upload_waiter.py:59-66 | the confirm step emits exactly one of `result` or `error`, and `finished` once, last |
| `TwoSlotWaiter.OnS3Result` | util/upload_waiter.py:70-77 | the counter drops by one; the pair is stored in the two `r2_*` attributes (a non-pair raises ValueError, counter already dropped); the confirmation runs exactly when the counter is at most zero, otherwise nothing is emitted |
| `TwoSlotWaiter.OnDriveResult` | util/upload_waiter.py:80-87 | as for S3, with the two `google_drive_*` attributes |
| `TwoSlotWaiter.BothResultsConfirmOnce` | util/upload_waiter.py:70-87 | with the default counter, one S3 and one Drive result in either order: nothing after the first, exactly one confirmation after the second, with all four values set, then the reply's signal and `finished` |
| `TwoSlotWaiter.UploadWaiter.constructor` | util/upload_waiter.py:19-37 | the counter is the argument, 2 by default; no result attribute set; no events |
| `TwoSlotWaiter.UploadWaiter.SendConfirm` | util/upload_waiter.py:39-67 | the new state is `AfterConfirm` of the old one |
| `TwoSlotWaiter.UploadWaiter.ReceiveS3UploadResult` | util/upload_waiter.py:69-77 | the new state and the raised exception are those of `OnS3Result` |
| `TwoSlotWaiter.UploadWaiter.ReceiveGoogleDriveUploadResult` | util/upload_waiter.py:79-87 | the new state and the raised exception are those of `OnDriveResult` |
| `Api.Subscript` | util/api.py:20-21 | `result[key]` returns the entry or raises KeyError for that key |
| `Api.CreateApiUploadWorker` | util/api.py:4-27 | succeeds exactly when both `'google_drive'` and `'s3'` are present and are pairs; otherwise raises KeyError or ValueError for the first failing lookup or unpacking, Drive first; the Drive pair gives the `google_drive_*` fields, the S3 pair the `r2_*` fields, the metadata passes through |
| `Api.OnlyTwoEntriesMatter` | util/api.py:20-27 | entries other than `'google_drive'` and `'s3'` do not affect the outcome |
| `Api.JoinThenHandoff` | util/api.py:20-25 | an S3 slot and a Drive slot each delivering a pair, in either order, give one combined result that builds the update worker from both pairs |
| `DriveLink.Split` | widget/google_drive_link.py:75 | splitting always yields at least one segment |
| `DriveLink.SplitSegmentsHaveNoSlash` | widget/google_drive_link.py:75 | no segment contains `/` |
| `DriveLink.SplitJoinRoundTrip` | widget/google_drive_link.py:75 | joining the segments with `/` gives back the path |
| `DriveLink.FirstIndex` | widget/google_drive_link.py:76-80 | `-1` exactly when the segment is absent, else the position of its first occurrence |
| `DriveLink.Grants` | widget/google_drive_link.py:96-100 | only an owner or a writer grants access; an owner always does; a writer does exactly when the e-mail address equals the user's or the grantee is `anyoneWithLink` |
| `DriveLink.DecideAsWritten` | widget/google_drive_link.py:69-106 | the decision as coded raises IndexError exactly when the link is non-empty and `"folders"` first occurs as the last segment |
| `DriveLink.TrailingFoldersRaises` | widget/google_drive_link.py:76-80 | the path `/drive/folders` passes the membership check and then raises IndexError |
| `DriveLink.Decide` | widget/google_drive_link.py:69-106 | empty link, no `"folders"` segment, or no permissions give `Invalid`; accepted iff some permission is `owner`, or `writer` for the user's e-mail or `anyoneWithLink`, with the segment after the first `"folders"` as folder id; `Denied` iff permissions exist and none grants |
| `DriveLink.DecideCorrectsOnlyTheRaise` | widget/google_drive_link.py:76-80 | the corrected decision, defined on its own, agrees with the decision as coded wherever that does not raise, and says `Invalid` where it does |
| `DriveLink.DriveLinkDialog.constructor` | widget/google_drive_link.py:47 | no signals emitted, dialog not accepted |
| `DriveLink.DriveLinkDialog.CheckAndAccept` | widget/google_drive_link.py:69-106 | returns `Decide` of its inputs; on acceptance `result(folder_id)` then `finished` are emitted once and the dialog is accepted; otherwise nothing is emitted |
| `TaskDb.InsertFile` | db/_connection.py:71-111 | an existing id raises IntegrityError; otherwise one row is added and no other changes; the name goes to `name`, the path to `path`, the image list is stored as JSON, status `"pending"`, progress 0, message `"Pending"` |
| `TaskDb.UpdateProgressMessage` | db/_connection.py:113-121 | only `task_progress` and `task_message` of the matching row change; an unknown id changes nothing |
| `TaskDb.UpdateStatus` | db/_connection.py:123-131 | only `task_status` of the matching row changes; an unknown id changes nothing |
| `TaskDb.UpsertConfig` | db/_connection.py:59-68 | afterwards the key holds the encoded value whether or not it existed; other keys unchanged |
| `TaskDb.Listed` | db/_connection.py:45-57 | the listed tuple has the row's id and the decoded image list |
| `TaskDb.CreatedRowListsBack` | db/_connection.py:96-109 | a row written by `create_file` lists back as written, with the image list decoded to the stored list |
| `TaskDb.OperationsKeepImageLists` | db/_connection.py:96-130 | insert and both updates keep every stored image list decodable as a list |
| `TaskDb.ListedAsWritten` | db/_connection.py:56-57 | as coded, `json.loads` is applied to `task_message`, and the raw image-list JSON is passed on undecoded |
| `TaskDb.ListFilesAsWrittenRaisesOnNewRows` | db/_connection.py:56-57 | as coded, listing a freshly created row raises, since `"Pending"` is not JSON |
| `TaskDb.Database.constructor` | db/_connection.py:10-40 | `CREATE TABLE IF NOT EXISTS` keeps the existing tables |
| `TaskDb.Database.CreateFile` | db/_connection.py:70-111 | the tables become `InsertFile` of the old ones, unchanged on IntegrityError; config untouched |
| `TaskDb.Database.SetFileProgressMessage` | db/_connection.py:113-121 | `file` becomes `UpdateProgressMessage` of the old one; config untouched |
| `TaskDb.Database.SetFileStatus` | db/_connection.py:123-131 | `file` becomes `UpdateStatus` of the old one; config untouched |
| `TaskDb.Database.SaveConfig` | db/_connection.py:59-68 | `config` becomes `UpsertConfig` of the old one; files untouched |
| `TaskDb.Database.ListFiles` | db/_connection.py:45-57 | exactly one tuple per stored row: as many tuples as rows, distinct ids, every stored id present, each tuple the row's columns with the image list decoded |

## Left out

- `WaiterWorker.Register`: `_BaseUploadWorker.__init__` sets no `file_id`, so `worker.file_id` in `add_upload_worker` would raise AttributeError for every upload worker. The model does not capture that raise. Its `WaiterWorker.Leg` supplies the id beside the worker, which is what the comparison in `add_upload_worker` evidently expects.

- Qt machinery: thread pools, `moveToThread`, `deleteLater` and cross-thread delivery. Handlers are assumed to run one at a time.
- The `print` calls in every handler. They have no effect on the model's state; the one exception is the IndexError of `receive_error` on an empty tuple, which is modelled.
- Signal connections in `add_upload_worker` (worker/upload_waiter.py:41-43). The slot id each lambda captures is the `slot` argument of the handlers.
- The HTTP POST in `_send_confirm`. Its reply is the `ServerReply` input.
- The Drive permission listing, the OAuth user lookup and `urllib.parse.urlparse`. Their results are the inputs of `DriveLink.Decide`.
- The dialog's message boxes and layout.
- ULID generation and byte encoding.
- The JSON encoding itself; `json.dumps` and `json.loads` are an exact inverse pair. In `TaskDb.ListedAsWritten`, `json.loads` on a plain string is a function parameter, whose behaviour on `"Pending"` is a premise of the lemma.
- SQLite PRAGMAs, NOT NULL checks on values Python might pass as None, and the commit and cursor lifecycle.
- The row order of `list_files`, which the SELECT leaves unspecified.
- Floating-point rounding of the progress values, which are reals.
- The Unicode meaning of `\w`, taken here as ASCII letters, digits and `_`.
- `WaiterWorker.UploadWaiterWorker`: its `signals` is a `WorkerSignals` (worker/_signal.py:3-6), which declares only `finished`, a one-argument `error` and `progress_status`. As coded, `signals.result.emit` and `signals.progress_message.emit` raise AttributeError, and `signals.error.emit(file_id, err_tuple)` passes two arguments to a one-argument signal. The connections in `add_upload_worker` fail the same way on a `_BaseUploadWorker`. The model's event log stands for the signals the handlers evidently mean to emit, and it does not capture these failures.
- `WaiterWorker.Event`: the `result` signal carries the one-element tuple `(result_dict,)`, so a Python consumer reads `result[0]`. The model's `Result` event carries the dict itself, and `Api.JoinThenHandoff` passes it on directly.
- `WaiterWorker.UploadWaiterWorker.ReceiveResult`: the emitted combined result is a snapshot of `result_dict`. In Python it is the dict object itself, which later deliveries would go on changing.
- The leaf workers (S3 and Drive uploads), the API update worker's network run, the Google Sheets workers, the GUI widgets, `app.py` and the migration script. None of them belongs to the modelled bookkeeping.

## Findings

| source | as written | input that shows it | evidently intended | confidence | as-written member | corrected member |
|---|---|---|---|---|---|---|
| widget/google_drive_link.py:76-80 | `"folders" in path_parts` is checked, but `path_parts[index + 1]` is not, so a path ending in `folders` raises IndexError from the slot | link `https://drive.google.com/drive/folders`, whose path is `/drive/folders` | report the link as invalid, like every other malformed link | medium, not executed | `DriveLink.DecideAsWritten`, `DriveLink.TrailingFoldersRaises` | `DriveLink.Decide`, `DriveLink.DecideCorrectsOnlyTheRaise`, `DriveLink.DriveLinkDialog.CheckAndAccept` |
| db/_connection.py:56-57 | `for file_id, *cols, image_list in rows` binds `image_list` to the last selected column, `task_message`; `json.loads` then parses the message, and the image-list JSON is passed on undecoded | any row written by `create_file`, whose message is `"Pending"`, which is not JSON | decode the `image_list` column in its SELECT position and pass every other column through | high, not executed | `TaskDb.ListedAsWritten`, `TaskDb.ListFilesAsWrittenRaisesOnNewRows` | `TaskDb.Listed`, `TaskDb.CreatedRowListsBack`, `TaskDb.Database.ListFiles` |

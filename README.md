# Indexed record store: LMDB and HDF5 backends and their bulk uploaders

This project models, in Dafny, the core of DBHandler, a small Python library.
The library stores (image, annotation) records under integer indices. It has
two backends and three bulk uploaders:

- **LMDB backend** (`LMDBHandler`). The store is a key-value environment.
  Record `i` is two entries:
  - `"{i}_img"`, the JPEG-encoded image;
  - `"{i}_annots"`, the UTF-8 JSON text of its annotation.

  A reserved entry `"num_data"` holds the record count in decimal. The count
  is never incremented. After every put it is recomputed as half the number
  of entries in the environment, and that total includes `"num_data"` itself
  once it exists.
- **HDF5 backend** (`HDF5Handler`, in two versions). The store is two
  resizable one-dimensional datasets, `images` and `labels`. A put first
  resizes both to exactly `idx + 1`, then assigns element `idx` of each. The
  length is the length of `images`. The two versions differ in what they do:
  - on a forced overwrite, the packaged one unlinks the old file and the
    older one truncates it;
  - in read mode, only the packaged one binds the datasets;
  - on a bad extension, the older one builds its message from an attribute
    that a plain string path lacks.
- **Uploaders**. Each one reads every (image path, label path) pair in
  parallel. It skips a pair whose image cannot be read or whose label file is
  missing. It commits each remaining sample at the store's current length:
  - at `len(store)` in the packaged LMDB uploader and in the HDF5 uploader;
  - at `len(store) + 1` in the root-level `upload.py`.

Modules, in dependency order:

| module | file | models |
|---|---|---|
| `Common` | common.dfy | `Option`, `Result`, and one `Error` per exception the code raises |
| `Codec` | codec.dfy | the image codec, the JSON serialiser and UTF-8, as function fields of an `Adapter`; `Lawful` states the round trips the store relies on |
| `Decimal` | decimal.dfy | `str()` and `int()` on integers |
| `LmdbBackend` | lmdb_handler.dfy | handler/lmdb_handler.py: the key scheme, the counter rule, put/get, opening, and the `LmdbHandler` class over a `map<string, Bytes>` |
| `Columnar` | columnar.dfy | the put/get/resize/length/close code shared by both HDF5 handlers, and the `Hdf5Handler` class with two `seq` fields |
| `Hdf5Backend` | hdf5_handler.dfy | DBHandler/handler/hdf5_handler.py: extension check, modes, dataset creation |
| `Hdf5LegacyBackend` | hdf5_handler_legacy.dfy | handler/hdf5_handler.py: the same, as that version does it |
| `Samples` | samples.dfy | `process`, the accepted samples, and the samples a batch commits before it fails |
| `Batches` | batches.dfy | the commit loop every uploader shares, generic in the store and its commit step |
| `LmdbUpload` | lmdb_upload.dfy | DBHandler/uploader/lmdb_upload.py (commit at `len`) and the LMDB properties of a batch at any offset |
| `Hdf5Upload` | hdf5_upload.dfy | uploader/hdf5_upload.py, which runs on the older HDF5 handler |
| `LegacyUpload` | legacy_upload.dfy | upload.py (commit at `len + 1`, no close) |

The uploaders' `upload` loops are methods on classes that hold a handler.
Each one is proved to leave exactly the state of a specification function,
`Batches.Ingest`, applied to the arrival order. The batch lemmas then prove
what `Ingest` does:
- which records result;
- with which contents;
- at which indices;
- and what `len` reports.

Two behaviours of the code matter for what an upload leaves:
- An HDF5 put resizes both datasets to exactly `idx + 1`, so a put below
  the current length truncates them (`Columnar.PutBelowLengthTruncates`).
- An uploader skips a pair only when its image cannot be read or its label
  file is missing. Two other failures raise out of the loop, end the upload
  and leave the store open:
  - an image that does not encode;
  - a label file that cannot be parsed.

  `Batches.Ingest` stops at the first such failure with that error. The
  uploaders' `Upload` methods then return it without closing the store.

## Model

| member | source | states |
|---|---|---|
| `Decimal.NatToString` | handler/lmdb_handler.py:117-118 | `str(n)` of a non-negative count is a non-empty run of ASCII digits |
| `Decimal.IntToString` | handler/lmdb_handler.py:86-96 | `str(i)` of an index starts with a digit or `-` and is never empty |
| `Decimal.ParseIntToString` | handler/lmdb_handler.py:113-118 | `int(str(i)) == i` for every integer, so the counter `_put_num_data` writes reads back as the same number |
| `Decimal.IntToStringInjective` | handler/lmdb_handler.py:86-96 | two indices have the same decimal text exactly when they are equal |
| `Decimal.ParseInt` | handler/lmdb_handler.py:113-115 | `int()` on the counter text: it accepts only a text that starts with `-` or a digit; a negative value comes only from a leading `-`, and a text without one gives a non-negative value |
| `Codec.Utf8NonEmpty` | handler/lmdb_handler.py:113-115 | under the round-trip laws only the empty text encodes to no bytes, so a written counter never takes the `else 0` branch of `_get_num_data` |
| `LmdbBackend.ImgKey` | handler/lmdb_handler.py:86-91 | the key `f"{idx}_img"`; `KeyScheme` proves its properties |
| `LmdbBackend.AnnotsKey` | handler/lmdb_handler.py:93-96 | the key `f"{idx}_annots"`; `KeyScheme` proves its properties |
| `LmdbBackend.KeyScheme` | handler/lmdb_handler.py:86-96 | `"{i}_img"` and `"{j}_annots"` never coincide; neither is `"num_data"`; each key determines its index, in both directions |
| `LmdbBackend.RecordKeysSize` | handler/lmdb_handler.py:120-127 | the records at the indices of S occupy exactly 2·\|S\| entries |
| `LmdbBackend.FreshKeys` | handler/lmdb_handler.py:86-96 | neither key of an index outside S is a key of a record in S |
| `LmdbBackend.RecordKeysAdd` | handler/lmdb_handler.py:86-96 | adding a fresh index adds exactly its two keys, so the key count grows by 2 |
| `LmdbBackend.StoredCount` | handler/lmdb_handler.py:113-115 | `_get_num_data` gives 0 when `"num_data"` is absent or empty; it fails only on bytes that are not UTF-8 or on text that is not a number |
| `LmdbBackend.CountOfIndexed` | handler/lmdb_handler.py:113-115 | on an environment holding exactly the records S, with a counter that is absent when S is empty and says \|S\| otherwise, `_get_num_data` returns \|S\| |
| `LmdbBackend.EntriesOfIndexed` | handler/lmdb_handler.py:120-122 | `get_length` counts entries, not records: 0 for no records, 2·\|S\|+1 once the counter exists |
| `LmdbBackend.WithCount` | handler/lmdb_handler.py:124-129 | `update_num_data` adds or rewrites only `"num_data"`, to the UTF-8 text of `str(entries // 2)`, and leaves every other entry as it was |
| `LmdbBackend.Written` | handler/lmdb_handler.py:70-79 | the environment after the writes of `put_data`; `WrittenKeys` and `WrittenValues` state what it holds |
| `LmdbBackend.PutResult` | handler/lmdb_handler.py:70-96 | for a JSON-serialisable annotation, `put_data` succeeds exactly when the image encodes and the environment is open and writable; an encode failure raises before anything is written; otherwise the error is Closed or ReadOnly |
| `LmdbBackend.PutTouchesOnlyItsKeys` | handler/lmdb_handler.py:70-96 | after a put, the keys are the old ones plus `"{idx}_img"`, `"{idx}_annots"` and `"num_data"`; the image entry is the encoding; the annotation entry is the UTF-8 JSON text; every other entry is unchanged |
| `LmdbBackend.WrittenKeys` | handler/lmdb_handler.py:70-79 | the two record writes and the counter write add exactly those three keys |
| `LmdbBackend.WrittenValues` | handler/lmdb_handler.py:70-79 | they set the two record entries and leave every other entry as it was |
| `LmdbBackend.CountAfterPut` | handler/lmdb_handler.py:120-127 | after a put, the counter reads floor(E / 2), E counting every entry after the two record writes, an existing `"num_data"` included |
| `LmdbBackend.RecordWritesSize` | handler/lmdb_handler.py:70-79 | on a store holding the records S, the two record writes leave exactly the keys of S + {idx}, plus the counter when S is non-empty, and floor(entries / 2) is \|S + {idx}\|, whether idx is fresh or not |
| `LmdbBackend.PutKeepsIndexed` | handler/lmdb_handler.py:124-127 | a put on a store holding exactly the records S, with the counter \|S\|, leaves exactly the records S + {idx}, with the counter \|S + {idx}\| |
| `LmdbBackend.LengthAfterPut` | handler/lmdb_handler.py:117-132 | re-putting an existing index leaves `len` unchanged; putting a fresh index adds one |
| `LmdbBackend.Lookup` | handler/lmdb_handler.py:81-111 | `get_data` raises KeyError when `"{idx}_annots"` is absent; its image slot is the returned (not raised) KeyError exactly when `"{idx}_img"` is absent, and otherwise the decode of that entry; on success the annotation entry exists and is valid UTF-8 |
| `LmdbBackend.GetAfterPut` | handler/lmdb_handler.py:70-111 | reading back the index just put gives the decoded stored image and the very annotation that was put |
| `LmdbBackend.GetOtherAfterPut` | handler/lmdb_handler.py:70-111 | a put leaves what every other index reads unchanged |
| `LmdbBackend.OpeningAsWritten` | handler/lmdb_handler.py:22-59 | the constructor as written. It succeeds exactly for an existing environment in `r`, for an absent path (or an empty directory with `force`) in `w`, and always in `a`. The errors are: `r` on a missing path raises FileNotFoundError; `r` on a directory without an environment raises lmdb's error; `w` on an existing path without `force` raises FileExistsError; `w` with `force` on an environment raises OSError from `rmdir`; any other mode raises ValueError. `w` starts empty and `r` is read-only |
| `LmdbBackend.ForcedOverwriteFailsAsWritten` | handler/lmdb_handler.py:38-43 | as written, `mode="w", force=True` on an existing environment raises, because `Path.rmdir` refuses the non-empty directory |
| `LmdbBackend.Opening` | handler/lmdb_handler.py:22-59 | the intended constructor, in which a forced overwrite replaces an existing environment with an empty one (see Findings). It succeeds exactly for an existing environment in `r`, for an absent path or `force` in `w`, and always in `a`. `r` on a missing path raises FileNotFoundError, `w` on an existing path without `force` raises FileExistsError, and any other mode raises ValueError. `w` starts empty and `r` is read-only. On every input other than a forced overwrite of an environment it equals `OpeningAsWritten` |
| `LmdbBackend.CreatedIsEmpty` | handler/lmdb_handler.py:38-47 | a store opened in `w` holds no records and has `len == 0` |
| `LmdbBackend.LenResult` | handler/lmdb_handler.py:131-132 | `__len__` raises on a closed environment; otherwise it is `_get_num_data`, which is 0 before the first put |
| `LmdbBackend.LmdbHandler.Open` | handler/lmdb_handler.py:22-59 | the intended constructor: a handler is constructed exactly when `Opening` succeeds, and starts in its state; otherwise it raises `Opening`'s error |
| `LmdbBackend.LmdbHandler.Put` | handler/lmdb_handler.py:66-68 | `_put` sets one key on an open, writable environment and fails on a closed or read-only one, leaving it unchanged |
| `LmdbBackend.LmdbHandler.PutImg` | handler/lmdb_handler.py:86-91 | `_put_img` raises on an encode failure before writing; otherwise it writes the encoding under `"{idx}_img"` |
| `LmdbBackend.LmdbHandler.PutAnnots` | handler/lmdb_handler.py:93-96 | for a JSON-serialisable annotation, `_put_annots` writes the UTF-8 JSON text under `"{idx}_annots"` |
| `LmdbBackend.LmdbHandler.GetLength` | handler/lmdb_handler.py:120-122 | `get_length` is the number of entries |
| `LmdbBackend.LmdbHandler.UpdateNumData` | handler/lmdb_handler.py:124-129 | `update_num_data` rewrites `"num_data"` as `str(entries // 2)` |
| `LmdbBackend.LmdbHandler.PutData` | handler/lmdb_handler.py:70-79 | for a JSON-serialisable annotation, `put_data` leaves exactly `PutResult`'s environment and returns `idx`, or raises `PutResult`'s error with the environment unchanged |
| `LmdbBackend.LmdbHandler.GetImg` | handler/lmdb_handler.py:98-104 | `_get_img` decodes the image entry and returns the KeyError value when it is absent |
| `LmdbBackend.LmdbHandler.GetAnnots` | handler/lmdb_handler.py:106-111 | `_get_annots` raises KeyError on a missing entry; on success it returns the parse of the entry's UTF-8 text |
| `LmdbBackend.LmdbHandler.GetData` | handler/lmdb_handler.py:81-84 | `get_data` is `Lookup` on the open environment |
| `LmdbBackend.LmdbHandler.Len` | handler/lmdb_handler.py:113-132 | `__len__` raises on a closed handler; otherwise it is the persisted counter, 0 when it is absent or empty, and otherwise `int()` of its UTF-8 text |
| `LmdbBackend.LmdbHandler.Close` | handler/lmdb_handler.py:134-137 | `close` closes the environment and keeps its entries |
| `Columnar.Resized` | DBHandler/handler/hdf5_handler.py:97-99 | `resize((n,))` gives exactly n elements: the first ones kept, the new ones the fill value |
| `Columnar.HasHdf5Extension` | DBHandler/handler/hdf5_handler.py:25-28 | the accepted paths are those ending in `.hdf5` |
| `Columnar.ReadFault` | handler/hdf5_handler.py:21-48 | a read fails exactly when the datasets were never bound (AttributeError) or the file is closed |
| `Columnar.WriteFault` | DBHandler/handler/hdf5_handler.py:81-99 | a resize or element write also fails on a read-only file |
| `Columnar.PutResult` | DBHandler/handler/hdf5_handler.py:81-99 | for a JSON-serialisable annotation, `put_data` succeeds exactly when the image encodes and the file is writable; encode failure raises ValueError before the resize; on success both datasets have exactly idx + 1 elements, element idx holds the encoding and the JSON text, elements below min(old length, idx) are unchanged and the rest of the new ones are fill |
| `Columnar.LengthResult` | DBHandler/handler/hdf5_handler.py:101-105 | `get_length` / `len` is the number of elements of `images` |
| `Columnar.GetResult` | DBHandler/handler/hdf5_handler.py:92-95 | `get_data` reads element idx of both datasets: the image decode and the parsed label; an index beyond either dataset fails |
| `Columnar.PutThenGet` | DBHandler/handler/hdf5_handler.py:81-95 | reading back the index just put gives the decoded encoding and the very annotation that was put |
| `Columnar.PutKeepsBelow` | DBHandler/handler/hdf5_handler.py:85-88 | a put leaves every index below it reading as before; positions the resize added read as the fill values |
| `Columnar.PutAtLengthAppends` | DBHandler/handler/hdf5_handler.py:81-99 | a put at the current length appends exactly one element to each dataset |
| `Columnar.PutBelowLengthTruncates` | handler/hdf5_handler.py:60-76 | a put more than one below the current length resizes both datasets to exactly idx + 1 elements, so `len` shrinks; the labels dataset shrinks too when the two datasets were aligned |
| `Columnar.Hdf5Handler.ResizeDatasets` | DBHandler/handler/hdf5_handler.py:97-99 | `_resize_datasets` resizes both datasets to exactly n elements, or fails and changes nothing |
| `Columnar.Hdf5Handler.PutData` | DBHandler/handler/hdf5_handler.py:81-90 | for a JSON-serialisable annotation, `put_data` leaves exactly `PutResult`'s datasets, or raises `PutResult`'s error with both datasets unchanged |
| `Columnar.Hdf5Handler.GetData` | DBHandler/handler/hdf5_handler.py:92-95 | `get_data` is `GetResult` on the handler's state |
| `Columnar.Hdf5Handler.GetLength` | DBHandler/handler/hdf5_handler.py:101-105 | `get_length` is `LengthResult` on the handler's state |
| `Columnar.Hdf5Handler.Close` | DBHandler/handler/hdf5_handler.py:107-110 | `close` closes the file and keeps both datasets |
| `Columnar.Hdf5Handler.Exit` | DBHandler/handler/hdf5_handler.py:118-122 | leaving a `with` block closes the file |
| `Hdf5Backend.Opening` | DBHandler/handler/hdf5_handler.py:11-79 | a path not ending in `.hdf5` raises ValueError before any mode handling; `r` on a missing file raises FileNotFoundError; `w` on an existing file without `force` raises FileExistsError; another mode raises ValueError; a missing dataset raises KeyError; `w` unlinks an existing file exactly when there is one and starts both datasets empty; `r` and `a` bind the file's datasets; only `r` is read-only |
| `Hdf5Backend.CreatedIsEmpty` | DBHandler/handler/hdf5_handler.py:37-64 | a file created in `w` has `len == 0` and aligned datasets |
| `Hdf5Backend.Open` | DBHandler/handler/hdf5_handler.py:11-79 | a handler is constructed exactly when `Opening` succeeds, in its state; otherwise the constructor raises `Opening`'s error |
| `Hdf5LegacyBackend.Modes` | handler/hdf5_handler.py:21-52 | `r` on a missing file raises FileNotFoundError; `w` on an existing file without `force` raises FileExistsError; `a` on a file without datasets raises KeyError; another mode raises ValueError; `w` starts both datasets empty; `a` keeps the file's datasets; `r` binds nothing |
| `Hdf5LegacyBackend.StrPathBadExtensionAsWritten` | handler/hdf5_handler.py:18-19 | as written, a plain-string path with the wrong extension raises AttributeError (`str` has no `.suffix`) instead of ValueError |
| `Hdf5LegacyBackend.OpeningAsWritten` | handler/hdf5_handler.py:12-52 | the constructor as written: a wrong extension raises AttributeError for a plain-string path and ValueError for a `Path`; otherwise the result is `Modes` |
| `Hdf5LegacyBackend.Opening` | handler/hdf5_handler.py:12-52 | a path not ending in `.hdf5` raises ValueError for either kind of argument, before any mode handling; otherwise the result is `Modes`; for a `Path` argument this is the code as written |
| `Hdf5LegacyBackend.VariantsCompared` | handler/hdf5_handler.py:21-52 | in `w` and `a` the two handler versions open the same and leave the same state, except that the packaged one unlinks a file it overwrites; in `r` only the packaged one binds the datasets and refuses a file without them |
| `Hdf5LegacyBackend.ReadModeUnbound` | handler/hdf5_handler.py:21-26 | in read mode the older handler can report neither a length nor a record (AttributeError) |
| `Hdf5LegacyBackend.Open` | handler/hdf5_handler.py:12-52 | the intended constructor: a handler is constructed exactly when the corrected `Opening` succeeds, in its state; otherwise it raises that `Opening`'s error |
| `Samples.Process` | DBHandler/uploader/lmdb_upload.py:17-34 | `process` returns None exactly when the image cannot be read or the label file is missing; it raises exactly when the image was read and the label fails otherwise; in every other case it returns the image and the parsed annotation |
| `Samples.Accepted` | DBHandler/uploader/lmdb_upload.py:39-44 | every pair yields at most one sample |
| `Samples.Committed` | DBHandler/uploader/lmdb_upload.py:42-47 | a batch commits a prefix of the accepted samples, in arrival order, and every committed sample encodes |
| `Samples.CommittableCommitsAll` | DBHandler/uploader/lmdb_upload.py:42-47 | when no pair raises, every accepted sample is committed |
| `Samples.CommittedAllOnlyIfCommittable` | DBHandler/uploader/lmdb_upload.py:42-47 | when some pair raises, a sample is lost or some label failed to parse |
| `Samples.EncodeFailureCuts` | DBHandler/uploader/lmdb_upload.py:42-47 | an accepted sample that does not encode leaves fewer committed samples than accepted ones |
| `Samples.AcceptedConcat` | DBHandler/uploader/lmdb_upload.py:39-44 | the samples of two runs of pairs are the samples of each, in order |
| `Samples.AcceptedPermutation` | DBHandler/uploader/lmdb_upload.py:38-44 | any arrival order of the same pairs yields the same samples, possibly in another order |
| `Samples.CommittedAllAccepted` | DBHandler/uploader/lmdb_upload.py:38-47 | when no pair raises, the committed samples are the accepted ones of the submitted pairs, as many and up to order |
| `Batches.Ingest` | DBHandler/uploader/lmdb_upload.py:39-47 | the upload loop over the arrival order: skip a None result, stop at the first exception, otherwise commit and go on; `IngestFills`, `IngestFrame` and `IngestContents` state what it leaves |
| `Batches.IngestFirst` | DBHandler/uploader/lmdb_upload.py:42-47 | a batch is its first result, followed by the rest unless that result raised |
| `Batches.IngestSkips` | DBHandler/uploader/lmdb_upload.py:43-44 | a skipped result changes nothing: no put, the same store |
| `Batches.IngestFills` | DBHandler/uploader/lmdb_upload.py:42-47 | if the commit step keeps an invariant that tracks the next index, a batch from index m ends at index m + k, k the number committed; and it ends normally exactly when no pair raises |
| `Batches.IngestFrame` | DBHandler/uploader/lmdb_upload.py:42-47 | if each commit writes only the next index, a batch leaves every index outside m .. m+k-1 as it reads |
| `Batches.IngestContents` | DBHandler/uploader/lmdb_upload.py:42-47 | if each commit writes its sample at the next index, the i-th committed sample is at index m + i |
| `LmdbUpload.CountOfRange` | DBHandler/uploader/lmdb_upload.py:45-46 | a store holding exactly the records lo .. hi-1 has `len == hi - lo` |
| `LmdbUpload.CommitAt` | DBHandler/uploader/lmdb_upload.py:45-47 | the locked step: `len` raising is that error, and a negative `len` is refused; otherwise the step succeeds exactly when the put at `len` + offset does, and leaves that put's environment with the handler's flags unchanged |
| `LmdbUpload.CommitNext` | DBHandler/uploader/lmdb_upload.py:45-47 | when `len` says m - offset, the locked step is the put at m |
| `LmdbUpload.CommitExtends` | DBHandler/uploader/lmdb_upload.py:45-47 | the put at m turns the records lo .. m-1 into lo .. m |
| `LmdbUpload.CommitStep` | DBHandler/uploader/lmdb_upload.py:45-47 | on a store holding exactly offset .. m-1, the step succeeds exactly when the image encodes, and it leaves offset .. m |
| `LmdbUpload.CommitWrite` | DBHandler/uploader/lmdb_upload.py:45-47 | the step writes the sample at m and leaves every other index reading as before |
| `LmdbUpload.IngestFillsStore` | DBHandler/uploader/lmdb_upload.py:42-47 | on a store holding exactly offset .. m-1, a batch leaves exactly offset .. m+k-1, k the number committed; the store stays open and writable; the batch ends normally exactly when no pair raises |
| `LmdbUpload.IngestStoresInOrder` | DBHandler/uploader/lmdb_upload.py:42-47 | index m + i then holds the i-th committed sample, in arrival order: its decoded encoding and its annotation |
| `LmdbUpload.IngestKeepsOthers` | DBHandler/uploader/lmdb_upload.py:42-47 | every index outside m .. m+k-1 reads as before the batch |
| `LmdbUpload.EmptyStoreFills` | DBHandler/uploader/lmdb_upload.py:42-47 | from an empty store, a batch in which no pair raises ends normally and leaves exactly the records offset .. offset+k-1 |
| `LmdbUpload.EmptyStoreLength` | DBHandler/uploader/lmdb_upload.py:42-47 | from an empty store, `len` is then k |
| `LmdbUpload.EmptyStoreContents` | DBHandler/uploader/lmdb_upload.py:42-47 | from an empty store, index offset + i holds the i-th committed sample |
| `LmdbUpload.FreshUploadCommits` | DBHandler/uploader/lmdb_upload.py:10-47 | from a freshly created store, an upload in which no pair raises ends normally and commits every accepted sample, in arrival order; that order is a permutation of the submitted order |
| `LmdbUpload.FreshUploadKeys` | DBHandler/uploader/lmdb_upload.py:10-47 | the store then holds exactly the records 0 .. k-1, with no duplicate or skipped index |
| `LmdbUpload.FreshUploadLength` | DBHandler/uploader/lmdb_upload.py:10-47 | the final `len` is k, the number of committed samples |
| `LmdbUpload.FreshUploadContents` | DBHandler/uploader/lmdb_upload.py:10-47 | record i holds the i-th committed sample |
| `LmdbUpload.LmdbUploader.Create` | DBHandler/uploader/lmdb_upload.py:10-14 | `__init__` opens the store in `w`, passing `force` through, and raises what that open raises |
| `LmdbUpload.LmdbUploader.Upload` | DBHandler/uploader/lmdb_upload.py:36-50 | `upload` leaves exactly the store and status of `Ingest` at offset 0 over the arrival order, and closes the store exactly when no pair raised |
| `Hdf5Upload.CommitSteps` | uploader/hdf5_upload.py:43-45 | the put at `len` succeeds exactly when the image encodes, and keeps both datasets aligned at one more element |
| `Hdf5Upload.CommitWrites` | uploader/hdf5_upload.py:43-45 | the put at `len` writes only the new last element |
| `Hdf5Upload.CommitAt` | uploader/hdf5_upload.py:43-45 | the commit step: `len` raising is that error; otherwise the step succeeds exactly when the put at `len` does, and leaves that put's datasets with the handler's flags unchanged |
| `Hdf5Upload.IngestKeepsOpen` | uploader/hdf5_upload.py:40-45 | a batch keeps the file open and writable and the datasets aligned; it grows them by the number committed; it ends normally exactly when no pair raises |
| `Hdf5Upload.IngestAppends` | uploader/hdf5_upload.py:40-45 | a batch appends the encodings and JSON texts of the committed samples, in arrival order, and leaves the earlier elements alone |
| `Hdf5Upload.EmptyAppends` | uploader/hdf5_upload.py:40-45 | from empty datasets, a batch leaves exactly the committed samples' encodings and JSON texts |
| `Hdf5Upload.CreatedIsEmpty` | handler/hdf5_handler.py:27-40 | the older handler in `w` starts open and writable, with both datasets empty |
| `Hdf5Upload.FreshUploadCommits` | uploader/hdf5_upload.py:9-45 | from a freshly created file, an upload in which no pair raises ends normally; `len` is the number of accepted samples; the committed samples are the accepted ones up to order |
| `Hdf5Upload.FreshUploadColumns` | uploader/hdf5_upload.py:9-45 | both datasets then hold exactly the committed samples, in arrival order, with every position below `len` filled |
| `Hdf5Upload.Hdf5Uploader.Create` | uploader/hdf5_upload.py:9-13 | `__init__` creates the file in `w` with the given `force`, and raises what that open raises |
| `Hdf5Upload.Hdf5Uploader.Upload` | uploader/hdf5_upload.py:35-46 | `upload` leaves exactly the datasets and status of `Ingest` over the arrival order, and closes the file exactly when no pair raised |
| `LegacyUpload.LmdbUploader.Create` | upload.py:19-26 | `__init__` raises FileExistsError for any existing path; otherwise it opens a new store in `w` |
| `LegacyUpload.LmdbUploader.Process` | upload.py:29-52 | `process` raises ValueError when the worker globals were never set; otherwise its one locked step is `Ingest` at offset 1 on that one pair: skip, or put at `len + 1` |
| `LegacyUpload.LmdbUploader.Upload` | upload.py:54-59 | `upload` leaves exactly the store and status of `Ingest` at offset 1 over the arrival order, and never closes the store |
| `LegacyUpload.FreshLegacyCommits` | upload.py:50-58 | from a freshly created store, an upload in which no pair raises ends normally and commits every accepted sample, up to order |
| `LegacyUpload.FreshLegacyRecords` | upload.py:50-52 | the records are then exactly the indices 1 .. k, and `len == k` |
| `LegacyUpload.FreshLegacyIndexZero` | upload.py:50-52 | index 0 is never written, so `get_data(0)` raises KeyError |
| `LegacyUpload.FreshLegacyContents` | upload.py:50-52 | index 1 + i holds the i-th committed sample |
| `LegacyUpload.IndexZeroUnused` | upload.py:51 | a store holding exactly the records 1 .. k has no entry for index 0 |

## Left out

- I/O is replaced by parameters and state:
  - `cv2.imread` and the label file read are the fields of `Samples.Files`;
  - the directory or file at the store's path is `LmdbBackend.Dir` / `Columnar.DiskFile`;
  - the lmdb environment and the h5py datasets are a map and two sequences.
- The thread and process pools, `as_completed`, `Pool.imap`, the `init` globals and the lock are not modelled. Results arrive in an arbitrary order: `arrivals` is any permutation of the submitted pairs. Each locked "read the length, then put" is one atomic step.
- The worker globals of upload.py become a nullable shared handler.
- In upload.py an exception in a worker reaches the caller only when `imap` yields that pair's result, and leaving the `Pool` block terminates the workers. The model ends the upload at the first exception in arrival order, so it does not capture what other workers commit in between.
- JPEG encoding and decoding are arbitrary functions: encoding can fail and decoding can return nothing. No image round trip is claimed, because the codec is lossy. A `cv2.error` raised by the codec is modelled as a failed encode.
- `LmdbBackend.PutResult`, `LmdbBackend.LmdbHandler.PutAnnots`, `LmdbBackend.LmdbHandler.PutData`, `Columnar.PutResult`, `Columnar.Hdf5Handler.PutData`: annotations are JSON values and the serialiser is total, so a `json.dumps` that raises is not modelled. Causes include a numpy scalar, a set or bytes in the annotation, or a lone surrogate in a string. The partial write such a failure leaves is also not modelled:
  - in LMDB, the `"{idx}_img"` entry is committed (handler/lmdb_handler.py:86-96), `update_num_data` does not run, and the orphan entry shifts the next count;
  - in HDF5, both datasets are already resized and `images[idx]` set (DBHandler/handler/hdf5_handler.py:85-88), so `labels[idx]` keeps the fill value.

  The uploaders pass only annotations that `json.load` produced, and those always serialise.
- JSON serialisation and UTF-8 are arbitrary functions. The only facts used about them are the round trips in `Codec.Lawful`, which lemmas take as a hypothesis.
- `Decimal.ParseInt` accepts only an optional `-` followed by ASCII digits. Python's `int()` also accepts surrounding whitespace, `+`, underscores and non-ASCII digits. The counter is only ever written by `str()`, so this does not change what the model proves.
- `Columnar.PutResult` takes a non-negative index. Negative indices, which h5py would interpret, are not modelled. The uploaders only pass lengths.
- File-system leftovers are not modelled:
  - the directory `mkdir` creates before a failing `lmdb.open`;
  - the file that h5py's `a` mode creates before the dataset lookup fails.
- `LmdbBackend.LmdbHandler.Open`, `LmdbUpload.LmdbUploader.Create`, `Hdf5LegacyBackend.Open` and `Hdf5Upload.Hdf5Uploader.Create` use the intended constructors from "## Findings" (`LmdbBackend.Opening`, `Hdf5LegacyBackend.Opening`), not the ones as written. The model therefore does not capture two behaviours of the code as written: the OSError that a forced LMDB overwrite of an existing environment raises, and the AttributeError that the older HDF5 handler raises for a plain-string path with a wrong extension. Both are stated in `LmdbBackend.ForcedOverwriteFailsAsWritten` and `Hdf5LegacyBackend.StrPathBadExtensionAsWritten`.
- The lmdb and h5py configuration is not modelled: map size, `max_readers`, read-only/lock/readahead/meminit flags, SWMR, `libver`, compression. The `verbose` prints, `tqdm`, and the `__del__` finalisers are left out too.
- handler/file_handler.py, an abstract base class with no behaviour of its own, is not part of this model.
- setup.py, main.py and the examples are not part of this model.
- DBHandler/handler/lmdb_handler.py, which the packaged LMDB uploader imports, is not part of this model. Neither is the root-level `lmdb_handler` module that upload.py imports (upload.py:5). Both uploaders are modelled against handler/lmdb_handler.py.
- `Columnar.Hdf5Handler.Exit`: `__exit__` exists only in the packaged HDF5 handler. The older handler, which the HDF5 uploader uses, has no `with` support, and the class shared by the two versions does not model that difference.

## Findings

| source | as written | input that shows it | evidently intended | confidence | as-written member | corrected member |
|---|---|---|---|---|---|---|
| handler/lmdb_handler.py:39-43 | a forced overwrite calls `Path.rmdir` on an existing environment directory | `mode="w", force=True` on a path holding an environment: the directory contains its data files, so `rmdir` raises OSError | `force=True` replaces the old environment with an empty one (`shutil` is imported but unused) | not executed | `LmdbBackend.ForcedOverwriteFailsAsWritten` | `LmdbBackend.Opening` |
| handler/hdf5_handler.py:18-19 | the extension error message reads `db_path.suffix` from the argument as passed | `HDF5Handler("data.h5", "w")` with a plain string: `str` has no `suffix`, so AttributeError is raised instead of ValueError | a wrong extension raises ValueError for any path argument, as in DBHandler/handler/hdf5_handler.py:25-28 | not executed | `Hdf5LegacyBackend.StrPathBadExtensionAsWritten` | `Hdf5LegacyBackend.Opening` |

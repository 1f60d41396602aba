# Artifact storage routing, modelled in Dafny

This project models the storage-routing core of a Go service that keeps
model weights and datasets. Each artifact (a model weight file or a dataset
archive) is a database row with a file name and a `storage_server` column.
That column is a JSON array of location labels: `backend`, `baidu_netdisk`,
`other_local`, or the name of a remote core server.

Around the rows sits the code that decides where the files live and how the
labels change:

- the fixed roots per category (`weights`, `datasets`) and storage target;
- normalisation of file names and stored names for uploads;
- the location-label set algebra (`set`, `add`, `remove`);
- the MySQL-backed DAO operations (save, lookup, metadata patch, resize,
  delete, listing query);
- the services on top of the DAOs;
- the Baidu Netdisk upload and download services;
- the SSH/SFTP transfer service and its server table;
- the Redis registry of core servers;
- the HTTP handlers' parameter parsing, error-to-status mapping,
  metadata-patch parsing, and the two controller flows that move files.
  The model download first tries the backend, then falls back to Baidu and
  records the new copy. The Baidu download to local storage syncs the
  model or dataset row.

The modules follow the repository layout:

| module | models |
|---|---|
| `ArtifactPaths` | `service/artifact_path_service.go` |
| `Sanitize` | `sanitizeFileName` |
| `Upload` | `service/upload_service.go` |
| `LocationSet`, `Pagination` | `dao/common.go` and its `internal/` twin |
| `StorageField` | `service/storage_server_utils.go` |
| `Dao` | `dao/model_dao.go` and `dao/dataset_dao.go`, one `Table` class with a `Kind` |
| `Services` | `service/model_service.go` and `service/dataset_service.go`, one `RecordService` class |
| `BaiduPan` | the two Baidu services |
| `SSHTransfer` | `service/ssh_artifact_transfer_service.go` |
| `CoreServers` | `service/core_server_redis_service.go` |
| `HttpParams` | handler helpers and `internal/controller/v1/http_helpers.go` |
| `MetadataPatch` | the model and dataset update helpers |
| `Controllers` | `handler/v1/model_controller.go` and `handler/v1/baidu_controller.go` |

`GoStrings`, `GoPath` and `Json` model the parts of Go's `strings`,
`path/filepath` and `encoding/json` that the core relies on. These are
`TrimSpace` over Unicode white space, `Base`/`Ext`/`Clean`/`Join` with Unix
separators, and `json.Marshal`/`Unmarshal` of a string array.

State that the Go code keeps in objects is modelled as classes with
`modifies` clauses:

- DAO tables: `map<nat, Row>`;
- the local file system: `map<string, …>`;
- the SSH server table and remote files;
- the Baidu download target directory.

Pure code is modelled as functions with lemmas. Loops become methods with
invariants, each proved against a specification function: label
normalisation and removal, storage-payload cleaning, file-name
sanitisation, key sorting for the core-server listing, and metadata-patch
scanning.

## Model

| member | source | states |
|---|---|---|
| ArtifactPaths.NormalizeCategory | service/artifact_path_service.go:61-71 | The only results are `weights` or `datasets`; every failure is ErrInvalidArtifactCategory. |
| ArtifactPaths.CategorySpellings | service/artifact_path_service.go:61-71 | Exactly the spellings "", weight(s), model(s) give `weights`, and exactly the dataset spellings give `datasets`. Case and surrounding space are ignored. Every other spelling is refused. |
| ArtifactPaths.NormalizeStorageTarget | service/artifact_path_service.go:73-85 | The only results are backend, baidu_netdisk or other_local; every failure is ErrInvalidStorageTarget. |
| ArtifactPaths.TargetSpellings | service/artifact_path_service.go:73-85 | Both directions: "" and backend map to backend, the Baidu synonyms to baidu_netdisk, other_local to itself, and nothing else is accepted. |
| ArtifactPaths.NormalizeIdempotent | service/artifact_path_service.go:61-85 | Normalising an already normalised category or target changes nothing. |
| ArtifactPaths.CanonicalCategory | service/artifact_path_service.go:61-71 | Each canonical category is accepted as itself. |
| ArtifactPaths.CanonicalTarget | service/artifact_path_service.go:73-85 | Each canonical target is accepted as itself. |
| ArtifactPaths.OtherNotBaidu | service/artifact_path_service.go:73-85 | other_local is not a Baidu synonym. |
| ArtifactPaths.ResolveRoot | service/artifact_path_service.go:87-116 | The category is checked before the target. A root is returned iff both normalise, and it is the trimmed configured root for that pair. |
| ArtifactPaths.ResolveRootBySpelling | service/artifact_path_service.go:87-116 | Two spellings of the same category and target resolve to the same root. |
| ArtifactPaths.NormalizeArtifactFileName | service/artifact_path_service.go:179-185 | A refused name is always refused with the empty-file-name error. |
| ArtifactPaths.NormalizedIsPlain | service/artifact_path_service.go:179-185 | An accepted file name is non-empty, trimmed, has no separator and is not ".". |
| ArtifactPaths.PlainNameAccepted | service/artifact_path_service.go:179-185 | A plain name is accepted unchanged. This is the partner of NormalizedIsPlain. |
| ArtifactPaths.NormalizeFileNameIdempotent | service/artifact_path_service.go:179-185 | Normalising a normalised file name changes nothing. |
| ArtifactPaths.NameBelowAccepted | service/artifact_path_service.go:179-185 | A plain name below any directory normalises to the name alone. |
| ArtifactPaths.BuildPath | service/artifact_path_service.go:118-131 | Errors come in the order root, file name, blank root. A path is returned iff all three checks pass, and it is non-empty. |
| ArtifactPaths.BuildPathUsesBaseName | service/artifact_path_service.go:118-131 | A caller-supplied directory part of the file name is discarded: only the base name is used. |
| ArtifactPaths.BuildPathUnderRoot | service/artifact_path_service.go:118-131 | For a name other than "..", the built path is the cleaned root followed by exactly one more element, the name. It is rooted iff the root is. |
| ArtifactPaths.BuildPathDotDotEscapes | service/artifact_path_service.go:118-131 | The file name ".." is accepted, and the built path is the root's parent directory, not a file under the root. |
| ArtifactPaths.DotDotAccepted | service/artifact_path_service.go:179-185 | normalizeArtifactFileName accepts "..". |
| ArtifactPaths.BuildAllPaths | service/artifact_path_service.go:133-151 | The three paths are the backend, Baidu and other_local BuildPath results. The first failure, in that order, is the answer. |
| ArtifactPaths.BuildAllPathsConfigured | service/artifact_path_service.go:133-151 | With every root configured, all three paths exist iff the category and file name are valid. |
| ArtifactPaths.GenerateStoredFileName | service/artifact_path_service.go:153-177 | The call fails, with ErrInvalidUploadFile, iff the trimmed base of the original name is "", "." or "/". |
| ArtifactPaths.StoredStem | service/artifact_path_service.go:160-167 | The stem is always a non-empty sanitised name. |
| ArtifactPaths.UploadBaseName | service/artifact_path_service.go:153-158 | An accepted original name is a trimmed, non-empty, separator-free base name. |
| ArtifactPaths.StoredFileNameShape | service/artifact_path_service.go:153-177 | A stored name keeps the original extension. It is a plain name, and normalizeArtifactFileName accepts it unchanged, so BuildPath can use it. |
| ArtifactPaths.DeriveFileName | service/artifact_path_service.go:207-224 | The derived name is empty or a plain name. |
| ArtifactPaths.DeriveKeepsPlainName | service/artifact_path_service.go:207-224 | An explicit plain file name wins over the legacy path. |
| ArtifactPaths.DeriveFromLegacy | service/artifact_path_service.go:207-224 | Without a file name, the last element of the legacy path is used. |
| Sanitize.SanitizeFileName | service/upload_service.go:155-171 | The loop computes the sanitised name: letters, digits, `-`, `_` and `.` are kept, everything else becomes `_`, and a blank result becomes "file". |
| Sanitize.Sanitized | service/upload_service.go:155-171 | A sanitised name is never empty. |
| Sanitize.SanitizedShape | service/upload_service.go:155-171 | The result contains only allowed characters, and a blank input gives "file". |
| Sanitize.SanitizedOfSanitized | service/upload_service.go:155-171 | A name that is already sanitised is returned unchanged. |
| Sanitize.SanitizedIdempotent | service/upload_service.go:155-171 | Sanitising twice is the same as sanitising once. |
| Sanitize.SanitizedTrimmed | service/upload_service.go:155-171 | A sanitised name has no surrounding space and no separator. |
| Upload.NormalizeStorageServer | service/upload_service.go:192-198 | The label is never empty: a blank label becomes backend, otherwise the trimmed label is used. |
| Upload.NormalizeStorageServerIdempotent | service/upload_service.go:192-198 | Normalising a label twice changes nothing. |
| Upload.BaiduLabelIsBaiduTarget | service/upload_service.go:200-207 | A label is a Baidu label iff it normalises to the baidu_netdisk target. |
| Upload.UploadTarget | service/upload_service.go:173-190 | The target is one of the three canonical ones. The Baidu flag is set iff the target is baidu_netdisk. Failures are ErrInvalidStorageTarget. |
| Upload.ResolveUploadTarget | service/upload_service.go:173-190 | The method computes UploadTarget. |
| Upload.UploadTargetTiers | service/upload_service.go:173-190 | Precedence: upload_to_baidu wins, then an explicit target, then the storage_server label. |
| Upload.TrimTarget | service/upload_service.go:173-190 | Trimming a target before normalising it makes no difference. |
| Upload.BaiduRootResolves | service/upload_service.go:133-145 | When all paths build, the Baidu root resolves, so the Baidu upload step has a directory. |
| Upload.UploadService.Save | service/upload_service.go:69-153 | The new file-system map and the result match the prepared save. A refusal writes nothing. The Baidu step runs only when requested, and it fails with ErrBaiduUploaderNil when there is no uploader. |
| Upload.UploadService.WriteLocal | service/upload_service.go:69-135 | The local half of save agrees with the save plan; an accepted upload writes exactly its content at the resolved path, a refused one leaves the file system unchanged. |
| Upload.UploadService.constructor | service/upload_service.go:54-59 | The service holds the given path service, uploader and file system. |
| Upload.SaveRejectsMissingFile | service/upload_service.go:69-72 | A missing file or a blank file name is ErrInvalidUploadFile. |
| Upload.SaveRejectsInvalidTarget | service/upload_service.go:69-81 | An explicit unknown storage target is ErrInvalidStorageTarget. |
| Upload.SavePaths | service/upload_service.go:69-153 | A prepared save writes a stored name under all three roots. It writes to the other_local path only for that target, otherwise to the backend path, and records the content size. |
| LocationSet.NormalizeServers | dao/common.go:80-97 | The loop computes Normalize: trimmed, non-empty, first occurrence kept, order preserved. |
| LocationSet.Normalize | dao/common.go:80-97 | The result is clean: trimmed, non-empty entries without duplicates. |
| LocationSet.NormalizeMembership | dao/common.go:80-97 | A label is in the result iff it is the non-empty trim of some input label. |
| LocationSet.NormalizeOfClean | dao/common.go:80-97 | A clean list is returned unchanged. |
| LocationSet.NormalizeIdempotent | dao/common.go:80-97 | Normalising twice is the same as normalising once. |
| LocationSet.NormalizePrefix | dao/common.go:80-97 | Normalising a prefix gives a prefix of the normalised whole, so the order of first occurrence is kept. |
| LocationSet.FilterMembership | dao/common.go:137-170 | Removal keeps exactly the labels that are not removed. |
| LocationSet.FilterAppend | dao/common.go:137-170 | Removal distributes over concatenation. |
| LocationSet.FilterDisjoint | dao/common.go:137-170 | Removing labels that are absent changes nothing. |
| LocationSet.FilterAll | dao/common.go:137-170 | Removing a list from itself leaves nothing. |
| LocationSet.FilterSubset | dao/common.go:137-170 | Removing a superset leaves nothing. |
| LocationSet.FilterClean | dao/common.go:137-170 | Removal keeps a clean list clean. |
| LocationSet.NormalizeConcatClean | dao/common.go:137-170 | Adding clean labels to a clean list appends only the new ones, in order. |
| LocationSet.ApplyStorageServerAction | dao/common.go:137-170 | The method computes Apply. |
| LocationSet.RemoveServers | dao/common.go:155-166 | The removal loop computes Filter. |
| LocationSet.ApplySet | dao/common.go:137-170 | "" and set replace the list with the normalised incoming labels. |
| LocationSet.ApplyAdd | dao/common.go:137-170 | add gives the normalised current labels followed by the new incoming ones. |
| LocationSet.ApplyRemove | dao/common.go:137-170 | remove keeps a label iff it is current and not incoming. |
| LocationSet.ApplyInvalid | dao/common.go:137-170 | Any other action is ErrInvalidAction. |
| LocationSet.AddDisjoint | dao/common.go:137-170 | Adding labels that are all new appends them all. |
| LocationSet.RemoveUndoesAdd | dao/common.go:137-170 | Removing what was just added restores the normalised original. |
| LocationSet.ApplyIsClean | dao/common.go:137-170 | Every action yields a clean list. |
| LocationSet.ApplyReadsBack | dao/common.go:99-170 | Storing the result of an action and parsing it back gives the same list. |
| LocationSet.ParseStorageServerValue | dao/common.go:99-123 | The parsed column is clean, and a blank column is the empty list. |
| LocationSet.ParseEncodeRoundTrip | dao/common.go:99-135 | Parsing an encoded list gives the normalised list. |
| LocationSet.EncodedIsTrimmed | dao/common.go:125-135 | The stored JSON has no surrounding space. |
| LocationSet.EncodeEmpty | dao/common.go:125-135 | The empty list is stored as "[]". |
| LocationSet.DuplicateKeyIgnoresCase | dao/common.go:172-180 | The duplicate-key test ignores case. |
| LocationSet.MySqlDuplicateEntry | dao/common.go:172-180 | A message containing MySQL's "Duplicate entry" is a duplicate-key error. |
| Json.ArrayRoundTrip | dao/common.go:125-135 | The JSON text of a string array decodes back to the same array, whatever escapes its strings need. |
| StorageField.NormalizeStorageServerField | service/storage_server_utils.go:8-33 | A blank field becomes "[]". Otherwise the field is the JSON encoding of its parsed, normalised labels. |
| StorageField.FieldIdempotent | service/storage_server_utils.go:8-33 | Normalising a normalised field changes nothing. |
| StorageField.FieldReadsBack | service/storage_server_utils.go:8-33 | Normalising the field never changes the labels it holds. |
| Pagination.NormalizeQueryParams | dao/common.go:56-69 | The page is at least 1. The page size is the default when not positive, capped at the maximum, and otherwise kept. |
| Pagination.Pagination | dao/common.go:72-78 | The offset is non-negative and the limit lies between 1 and the cap. |
| Pagination.NextPageFollows | dao/common.go:72-78 | Page n+1 starts where page n ends. |
| Pagination.FirstPage | dao/common.go:72-78 | The first page, and any page below 1, starts at offset 0. |
| Pagination.InternalLimitCapped | internal/dao/common.go:32-48 | The internal DAO's limit never exceeds 100. |
| Pagination.WithContext | dao/common.go:41-53 | A missing database is ErrDBNotInitialized. Otherwise the given context, or the background context, is used. |
| Pagination.QueryParams.GetOffset | entity/query_params.go:44-52 | The page and size are defaulted in place, and the offset is (page-1)*size ≥ 0. |
| Pagination.QueryParams.GetLimit | entity/query_params.go:55-60 | The size is defaulted in place and returned uncapped. |
| Dao.SaveFileName | dao/model_dao.go:29-89 | The stored file name is a plain name. An acceptable given name is kept. |
| Dao.SaveKeepsPlainName | dao/model_dao.go:29-89 | A plain file name is saved as is. |
| Dao.SavePrefersLegacyFileName | dao/model_dao.go:29-89 | For models, the legacy file name comes before the legacy path. |
| Dao.DatasetIgnoresLegacyFileName | dao/dataset_dao.go:26-67 | Datasets have no legacy file-name fallback. |
| Dao.SaveFromLegacyPath | dao/model_dao.go:29-89 | Without a name, the last element of the legacy path is used. |
| Dao.ColumnsWritten | dao/model_dao.go:29-89 | A saved row carries the record's file name, labels, size, name and version. |
| Dao.OrderBy | dao/model_dao.go:356-457 | The order is id DESC or the size column ascending or descending. |
| Dao.OrderBySize | dao/model_dao.go:356-457 | Both directions: asc and desc select size ordering, and anything else gives id DESC. |
| Dao.SizeSortOverridesWeightSort | dao/model_dao.go:356-457 | A size_sort value makes weight_sort irrelevant. |
| Dao.ModelAlgorithmFilter | dao/model_dao.go:356-457 | There is an algorithm_id filter iff an algorithm is requested, and its value is the requested one. |
| Dao.MapDatasetTypeToTaskType | dao/dataset_dao.go:410-432 | Types 1 to 5 map to named task types. Every other value is "unknown". |
| Dao.DatasetTaskTypeFilter | dao/dataset_dao.go:321-408 | The task_type filter comes from task_type when given, otherwise from the legacy dataset_type. An out-of-range type filters on "unknown". |
| Dao.Table.Save | dao/model_dao.go:29-89 | A nil record or an unnameable record is ErrNilEntity, and a missing database is an error; the table is unchanged in both cases. On success the record's row holds its normalised name and labels, and no other row changes. |
| Dao.Table.constructor | dao/model_dao.go:20-26 | A new table is empty and numbers rows from 1. |
| Dao.Table.Write | dao/model_dao.go:66-88 | A model with the same name and version is updated in place. Otherwise a new row gets the next id. Other rows are untouched. |
| Dao.Table.Commit | dao/model_dao.go:57-88 | The entity holds the chosen name and location set; with no database the no-database error is returned and no row changes; otherwise the row under the entity's id holds its file name, location set and size, and no other row changes. |
| Dao.Table.MergeRow | dao/model_dao.go:72-78 | A model whose (name, version) is already stored overwrites that row's updatable columns and takes that row's id. |
| Dao.Table.InsertRow | dao/model_dao.go:72-78 | Anything else is stored as one new row under a fresh id that was not in the table. |
| Dao.Table.GetStorageServersByID | dao/model_dao.go:92-116 | The errors are invalid id, no database and not found. The labels are clean, and a blank column is the empty list. |
| Dao.Table.UpdateStorageServersByID | dao/model_dao.go:119-157 | The new labels are the action applied to the stored labels, and only that row's column changes. Reading back gives the same labels. A failure changes nothing. |
| Dao.Table.FindByID | dao/model_dao.go:304-326 | The errors are invalid id, no database and not found; otherwise the result is the row. |
| Dao.Table.FindFileNameByID | dao/model_dao.go:178-206 | A blank stored name is ErrNilEntity. Otherwise the result is the trimmed stored name. |
| Dao.Table.FindPlainName | dao/model_dao.go:178-206 | A plain stored name is returned as is. |
| Dao.Table.UpdateSizeByFileName | dao/model_dao.go:214-241 | A bad name or a negative size is ErrNilEntity. Exactly the rows with that name get the new size, and the count of changed rows is returned. |
| Dao.Table.DeleteByFileName | dao/dataset_dao.go:291-319 | Exactly the rows with that name are deleted and counted. None gives ErrRecordNotFound, and a failure changes nothing. |
| Dao.Table.DeleteByID | dao/model_dao.go:244-270 | Exactly the row with that id is deleted. The errors are invalid id, no database and not found. |
| Dao.Table.FindByName | dao/model_dao.go:329-353 | A blank name is ErrNilEntity. A found row has that trimmed name. Not found holds iff no row has it. For models, the row found comes first in the order "version DESC, id DESC" among all rows with that name. |
| Dao.FirstExists | dao/model_dao.go:345 | Every non-empty set of rows has a first row in the order "version DESC, id DESC". |
| Dao.FirstUnique | dao/model_dao.go:345 | That first row is unique, so the model lookup names exactly one row. |
| Dao.Table.UpdateMetadataByID | dao/model_dao.go:460-500 | The updates are merged into that row only. Errors are checked in order, and a duplicate key becomes ErrAlreadyExists. A failure changes nothing. |
| Dao.Table.FindAll | dao/model_dao.go:356-457 | Without a database the call fails. Otherwise the query has a valid page window and one of the three orders. |
| Services.DeriveRecordName | service/model_service.go:185-197 | The derived name is empty or plain. |
| Services.ModelWeightNameFirst | service/model_service.go:185-197 | weight_name wins. |
| Services.ModelLegacyFileNameSecond | service/model_service.go:185-197 | The legacy file name comes next. |
| Services.RecordNameFromLegacyPath | service/model_service.go:185-197 | The legacy path comes last. |
| Services.BytesToMB | service/model_service.go:215-221 | The size is never negative, and 0 for a non-positive byte count. |
| Services.BytesToMBClose | service/model_service.go:215-221 | The size is the exact megabyte value rounded to three decimals, within 0.0005. |
| Services.BytesToMBMonotone | service/model_service.go:215-221 | More bytes never report fewer megabytes. |
| Services.FieldSurvivesSave | service/model_service.go:31-46 | A normalised storage field is stored unchanged by the DAO's encode step. |
| Services.RecordService.LocalSizeMB | service/model_service.go:199-213 | A size is reported only for an existing backend file, and it is that file's size in MB. |
| Services.RecordService.CreateRecord | service/model_service.go:31-46 | A nil or unnameable record is refused. The storage field is normalised, the name derived, and a missing size is filled from the local file before the save. |
| Services.RecordService.Prepare | service/model_service.go:35-36 | The entity's location set is normalised and its file name becomes the derived record name. |
| Services.RecordService.FillSize | service/model_service.go:40-44 | A size of zero or less is replaced by the local file's size when one is known; otherwise the size is kept. |
| Services.RecordService.PatchedUpdates | service/model_service.go:94-120 | A file name that is present must be usable, and it is stored as a plain name. A text storage field is normalised. A missing size is filled when the local file exists. No other key is added. |
| Services.WithSize | service/model_service.go:110-117 | A size column is added only when the update gives none and a local size is known; every column the update gives keeps its value. |
| Services.RecordService.SizeFilled | service/model_service.go:94-120 | Only the size column may be added, and only from an existing local file. |
| Services.RecordService.StorageNormalized | service/model_service.go:94-120 | Only the text storage column changes, to its normalised field. |
| Services.RecordService.PatchedKeepsOthers | service/model_service.go:94-120 | Every other column's value passes through unchanged. |
| Services.RecordService.UpdateMetadata | service/model_service.go:94-120 | No updates, or an unusable file name, is ErrNilEntity. A refusal leaves the table unchanged. |
| Services.RecordService.SyncSize | service/model_service.go:122-137 | A bad name or a negative size is ErrNilEntity. Exactly the rows with that name get the rounded MB size. |
| Services.RecordService.BackendPath | service/model_service.go:139-183 | A built backend path is non-empty. |
| Services.RecordService.DeleteByFileName | service/model_service.go:139-183 | The rows with that name are deleted and counted. The local file is then removed only if it exists. A refusal changes nothing. |
| Services.RecordService.RemoveLocalFile | service/model_service.go:160-180 | A missing file is not an error, a stat or remove fault is reported, and otherwise the file is gone. |
| Services.RecordService.LocalRemoval | service/model_service.go:160-180 | A local file is removed exactly when a resolver exists, the path resolves, neither stat nor remove fails and a regular file is there; only that entry disappears; each failure returns its own error, and a missing file or a directory is not an error. |
| Services.RecordService.ResolveFilePathByID | service/model_service.go:79-88 | The path is BuildPath of the record's file name. The lookup errors come first. |
| Services.RecordService.ResolvedBelowRoot | service/model_service.go:79-88 | A record's resolved path lies directly under the target root. |
| Services.RecordService.constructor | service/model_service.go:24-29 | The service holds the given table, path service and file system. |
| BaiduPan.ClientFromConfig | service/baidupan_download_service.go:52-59 | The token is trimmed, the log path is defaulted when blank, and the SVIP flag is copied. |
| BaiduPan.NoConfigNoToken | service/baidupan_download_service.go:52-59 | Without a configuration there is no token. |
| BaiduPan.NormalizeBaiduRemoteDir | service/baidupan_upload_service.go:82-96 | An accepted directory is absolute, clean and not "/". A blank directory is refused. |
| BaiduPan.NormalizeBaiduRemotePath | service/baidupan_download_service.go:150-163 | An accepted path is absolute, clean and not "/". A blank path is refused. |
| BaiduPan.RemoteDirAndPathAgree | service/baidupan_download_service.go:150-163 | Remote directories and remote paths are normalised alike. |
| BaiduPan.NormalizeBaiduRemoteDirFixedPoint | service/baidupan_upload_service.go:82-96 | Normalising a normalised directory changes nothing. |
| BaiduPan.Upload | service/baidupan_upload_service.go:53-80 | A missing token is checked first, then the directory. A success places the base name under the directory. An SDK fault is an error. |
| BaiduPan.UploadRejectsBadBaseName | service/baidupan_upload_service.go:53-80 | A local path with no usable base name is ErrInvalidUploadFile. |
| BaiduPan.UploadLandsInDir | service/baidupan_upload_service.go:53-80 | The remote path is directly inside the remote directory. |
| BaiduPan.Download | service/baidupan_download_service.go:61-85 | The token, path and local file are checked in that order. The call succeeds iff all pass and the SDK does not fail. |
| BaiduPan.BuildTargetFileName | service/baidupan_download_service.go:165-180 | A non-blank custom name gives the normalised base name of its trim. A blank one gives the normalised base name of the remote path. The result is a plain name. The custom name's refusal is ErrInvalidLocalDownloadFile, the remote path's ErrInvalidBaiduDownloadFile. |
| BaiduPan.DownloadPlan | service/baidupan_download_service.go:94-148 | A missing downloader and a missing path service come first. A plan holds the normalised remote path, the accepted category, the target file name and its backend path. |
| BaiduPan.DownloadRejectsCategory | service/baidupan_download_service.go:94-148 | An unknown category is ErrInvalidDownloadCategory. |
| BaiduPan.BlankCategoryIsWeights | service/baidupan_download_service.go:94-148 | A blank category downloads to the backend weights root. |
| BaiduPan.DownloadService.DownloadToLocal | service/baidupan_download_service.go:94-148 | A refusal writes nothing. A fetched file lands at the planned backend path, and its size is reported. |
| BaiduPan.DownloadService.constructor | service/baidupan_download_service.go:87-92 | The service holds the given path service, downloader and local store. |
| SSHTransfer.NormalizeServerConfig | service/ssh_artifact_transfer_service.go:860-884 | The ip, user and key path are the trims of the given ones, and non-empty. Port 0 becomes 22, and a timeout ≤ 0 becomes the 15-second default. Other ports and timeouts are kept. The port is valid. |
| SSHTransfer.ServerConfigErrors | service/ssh_artifact_transfer_service.go:860-884 | Each missing field has its own error, checked in source order, and a config with every field present is accepted. |
| SSHTransfer.NormalizeServerConfigIdempotent | service/ssh_artifact_transfer_service.go:860-884 | Normalising a normalised config changes nothing. |
| SSHTransfer.ResolveServer | service/ssh_artifact_transfer_service.go:794-852 | A blank name is refused. The resolved server carries the trimmed name, a valid port, and the override port when one is given. |
| SSHTransfer.UnknownServerFallsBack | service/ssh_artifact_transfer_service.go:794-852 | A name with no entry resolves to the default server's address, and never fails when the default config and the port are valid. |
| SSHTransfer.SetThenResolve | service/ssh_artifact_transfer_service.go:198-227 | A server that was just set resolves to the stored config. |
| SSHTransfer.NormalizeRemoteFilePath | service/ssh_artifact_transfer_service.go:967-980 | An accepted path is absolute, clean, not "/" and free of backslashes. |
| SSHTransfer.NormalizeRemoteFilePathFixedPoint | service/ssh_artifact_transfer_service.go:967-980 | Normalising a normalised remote path changes nothing. |
| SSHTransfer.IsNotExistError | service/ssh_artifact_transfer_service.go:1190-1199 | A nil error is not a not-exist error. Any error that wraps os.ErrNotExist, at any depth, is one. |
| SSHTransfer.NotExistMessage | service/ssh_artifact_transfer_service.go:1197-1198 | Any message containing "not exist" or "no such file", in any case and with any surrounding text or space, is recognised. |
| SSHTransfer.NotExistIgnoresCase | service/ssh_artifact_transfer_service.go:1197-1198 | The message test gives the same answer for a message and its lower case. |
| SSHTransfer.UploadChecksSourceFirst | service/ssh_artifact_transfer_service.go:248-345 | A missing local source is reported before any server is contacted. |
| SSHTransfer.UploadPlan | service/ssh_artifact_transfer_service.go:248-345 | An upload plan reads an existing local file and goes to the resolved server at the normalised remote path. |
| SSHTransfer.DownloadPlan | service/ssh_artifact_transfer_service.go:366-459 | A download plan goes to the resolved server, from the normalised remote path to the cleaned local path. |
| SSHTransfer.SearchPlan | service/ssh_artifact_transfer_service.go:479-577 | A search looks for the normalised name under the weights and datasets other_local roots on the resolved server. |
| SSHTransfer.SearchOutcome | service/ssh_artifact_transfer_service.go:479-577 | A file is reported found iff it is under either root, and the matched path is one of the two. |
| SSHTransfer.LocalBackendFile | service/ssh_artifact_transfer_service.go:892-921 | A found file is a regular file under the backend root of its category. |
| SSHTransfer.LocalRegular | service/ssh_artifact_transfer_service.go:929-941 | The check is true iff the cleaned path is a regular file. |
| SSHTransfer.PickBackend | service/ssh_artifact_transfer_service.go:902-920 | A chosen file is a regular file at the cleaned weights or datasets path, and the category returned is the one of that path. |
| SSHTransfer.PickBackendDecisions | service/ssh_artifact_transfer_service.go:911-919 | Regular files under both backend roots are a conflict; nothing under either is not found. |
| SSHTransfer.LocalBackendDecisions | service/ssh_artifact_transfer_service.go:892-921 | A file in both backend roots is a conflict. A file in neither is not found. |
| SSHTransfer.StaticServerConfigs | service/ssh_artifact_transfer_service.go:132-190 | The four static servers are named after their keys and share the default ip. |
| SSHTransfer.TransferService.constructor | service/ssh_artifact_transfer_service.go:132-190 | The service starts with the given state and no sessions. |
| SSHTransfer.TransferService.New | service/ssh_artifact_transfer_service.go:132-190 | The default service has the default roots, the static servers and the default server. |
| SSHTransfer.TransferService.SetServerConfig | service/ssh_artifact_transfer_service.go:198-227 | A blank name or a bad config changes nothing. Otherwise exactly that entry is replaced with the normalised config. |
| SSHTransfer.TransferService.UploadFileByPath | service/ssh_artifact_transfer_service.go:248-345 | A refused plan changes nothing. A success writes the local content to the remote path and opens one session. |
| SSHTransfer.TransferService.DownloadFileByPath | service/ssh_artifact_transfer_service.go:366-459 | A missing remote file is ErrRemoteArtifactNotFound. A success copies it to the local path. |
| SSHTransfer.TransferService.SearchRemoteFile | service/ssh_artifact_transfer_service.go:479-577 | The result reports the name's presence under both remote roots and changes no files. |
| SSHTransfer.TransferService.Probe | service/ssh_artifact_transfer_service.go:535-562 | The search result is the search outcome of the plan over the remote files: both existence flags, and a matched path only when exactly one root holds the file. |
| SSHTransfer.TransferService.UploadArtifactByName | service/ssh_artifact_transfer_service.go:597-673 | The name must be in exactly one backend root. A remote copy in the same category is ErrRemoteArtifactAlreadyExists. A success lands under the other_local root of that category. |
| SSHTransfer.TransferService.DownloadArtifactByName | service/ssh_artifact_transfer_service.go:693-775 | The name must be in exactly one remote root: neither or both are errors. A success lands in that category's backend root. |
| SSHTransfer.TransferService.DownloadNamed | service/ssh_artifact_transfer_service.go:715-775 | For a normalised name: a failed plan, a file in neither remote root and a file in both are refused with the local files unchanged; a success downloads the one found file into the backend root of its category. |
| SSHTransfer.TransferService.DownloadFound | service/ssh_artifact_transfer_service.go:739-775 | The file found in exactly one remote root is downloaded into the backend root of that category under the same name, and the local file system gains only that file. |
| GoStrings.BelowIrreflexive | service/core_server_redis_service.go:45-49 | The key order used by sort.Strings is irreflexive. |
| GoStrings.BelowTransitive | service/core_server_redis_service.go:45-49 | The key order is transitive. |
| GoStrings.BelowTotal | service/core_server_redis_service.go:45-49 | The key order is total. |
| CoreServers.Insert | service/core_server_redis_service.go:45-49 | Inserting keeps the keys ascending and adds exactly one key. |
| CoreServers.SortedKeys | service/core_server_redis_service.go:45-49 | The keys are returned ascending and are exactly the hash's keys. |
| CoreServers.GetCoreServerByKey | service/core_server_redis_service.go:73-109 | A missing client, a blank key and a missing or blank payload each have their own error. A result carries the trimmed key and the decoded address. |
| CoreServers.GetDecodedServer | service/core_server_redis_service.go:73-109 | A decodable payload is returned under its trimmed key. |
| CoreServers.CollectErrorPersists | service/core_server_redis_service.go:51-68 | The first parse error stops the listing. |
| CoreServers.CollectEntries | service/core_server_redis_service.go:51-68 | Every listed server comes from a non-blank hash entry with that decoded address. |
| CoreServers.CollectError | service/core_server_redis_service.go:51-68 | A failure names the first malformed key in order. |
| CoreServers.ListCoreServers | service/core_server_redis_service.go:32-71 | A missing client and a Redis fault are errors. Otherwise the listing is in ascending key order and contains every non-blank entry. A failure names the smallest malformed key. |
| CoreServers.CollectServers | service/core_server_redis_service.go:51-68 | The listing loop over the sorted keys returns exactly the collection of those keys: blank payloads skipped, the first malformed payload ends it with its error. |
| CoreServers.ListSuccess | service/core_server_redis_service.go:45-71 | A successful listing means no payload is malformed; the servers are in strictly ascending key order, each decodes from its own payload, and every non-blank key is listed. |
| CoreServers.ListFailure | service/core_server_redis_service.go:32-71 | Over the sorted keys, the reported error is the smallest malformed key's. |
| CoreServers.ListedIsFetched | service/core_server_redis_service.go:32-109 | A listed server with a trimmed key is what GetCoreServerByKey returns for that key. |
| HttpParams.ParseDecimal | handler/v1/storage_server_helpers.go:19-30 | The text is parsed only if it is all digits, and only below 2^64. The value is the decimal value. |
| HttpParams.DecimalRoundTrip | handler/v1/storage_server_helpers.go:19-30 | Every number below 2^64 parses back from its decimal text. |
| HttpParams.ParseUintPathParam | handler/v1/storage_server_helpers.go:19-30 | The trimmed parameter is parsed. A blank parameter is "<key> is required"; other failures are "<key> must be an unsigned integer". |
| HttpParams.PathParamRoundTrip | handler/v1/storage_server_helpers.go:19-30 | The decimal text of an id parses back, even with surrounding space. |
| HttpParams.ParseIDParam | internal/controller/v1/http_helpers.go:14-21 | Only positive numbers are accepted. A failure wraps ErrInvalidID with the raw text. |
| HttpParams.IDParamRoundTrip | internal/controller/v1/http_helpers.go:14-21 | A positive id parses back, and 0 is refused. |
| HttpParams.ParseBool | handler/v1/upload_helpers.go:11-22 | Exactly Go's strconv.ParseBool spellings are accepted. |
| HttpParams.ParseOptionalBoolForm | handler/v1/upload_helpers.go:11-22 | A missing or blank field gives the default. An unparsable one is refused with "<key> must be a boolean". |
| HttpParams.BoolFormRoundTrip | handler/v1/upload_helpers.go:11-22 | A formatted boolean in the form parses back to itself. |
| HttpParams.NormalizeStorageServerPayload | handler/v1/storage_server_helpers.go:32-48 | The action defaults to set, lower-cased. The labels are the single label followed by the list, trimmed, with blanks dropped. |
| HttpParams.NonBlank | handler/v1/storage_server_helpers.go:32-48 | Every kept label is non-empty and trimmed. |
| HttpParams.NormalizeNonBlank | handler/v1/storage_server_helpers.go:32-48 | Dropping blanks first does not change what the DAO stores. |
| HttpParams.NonBlankFromInput | handler/v1/storage_server_helpers.go:32-48 | Every kept label is the trim of an input label. |
| HttpParams.PayloadAction | handler/v1/storage_server_helpers.go:32-48 | The action is never empty. A given action is used lower-cased and trimmed. |
| HttpParams.BuildStorageServerResponse | handler/v1/storage_server_helpers.go:50-61 | The primary label is the first label, or "" when there are none. |
| HttpParams.PrimaryOfCleanSet | handler/v1/storage_server_helpers.go:50-61 | The primary label is empty iff the list is empty, and otherwise it is in the list. |
| HttpParams.StatusOfSentinels | handler/v1/handler_helpers.go:22-42 | Invalid id, nil entity and invalid action map to 400, already-exists to 409, record-not-found to 404 with its fixed message, and everything else to 500. |
| HttpParams.WrappedKeepsStatus | handler/v1/handler_helpers.go:22-42 | Wrapping an error keeps its status. |
| HttpParams.ConflictOnlyInV1 | internal/controller/v1/http_helpers.go:23-32 | Only the v1 handlers map already-exists to 409; the internal ones give 500. |
| HttpParams.BadIDIsClientError | internal/controller/v1/http_helpers.go:14-32 | An unparsable internal id is a 400 with the raw text. |
| MetadataPatch.RequiredString | handler/v1/model_update_helpers.go:130-140 | Non-blank strings are accepted, trimmed. A non-string and a blank string have their own messages. |
| MetadataPatch.NullableString | handler/v1/model_update_helpers.go:142-156 | null and blank strings become NULL. Other strings are trimmed. Anything else is refused. |
| MetadataPatch.FloatField | handler/v1/model_update_helpers.go:180-209 | Numbers are accepted, and strings are accepted when they parse. |
| MetadataPatch.PositiveFloat | handler/v1/model_update_helpers.go:158-167 | A number is accepted iff it is above 0. |
| MetadataPatch.NonNegativeFloat | handler/v1/model_update_helpers.go:169-178 | A number is accepted iff it is at least 0. |
| MetadataPatch.UintField | handler/v1/model_update_helpers.go:211-251 | Whole non-negative numbers and decimal strings below 2^64 are accepted. |
| MetadataPatch.UintFieldRoundTrip | handler/v1/model_update_helpers.go:211-251 | A count given as a number or as text reads back as itself. |
| MetadataPatch.NullableUint | handler/v1/dataset_update_helpers.go:146-155 | null gives NULL. Anything else is read as a count. |
| MetadataPatch.JSONRaw | handler/v1/dataset_update_helpers.go:157-195 | null and blank give NULL. A string must be valid JSON. Any other value is marshalled. |
| MetadataPatch.PatchServerItems | handler/v1/model_update_helpers.go:266-301 | The loop computes ItemServers. |
| MetadataPatch.ErrorPersists | handler/v1/model_update_helpers.go:266-301 | The first non-string item refuses the whole array. |
| MetadataPatch.ItemServersMeaning | handler/v1/model_update_helpers.go:266-301 | An array is accepted iff every item is a string. |
| MetadataPatch.PatchServers | handler/v1/model_update_helpers.go:266-301 | null gives no labels. Text is read as a JSON string array, else as one JSON string, else as one label. An array gives its items. Anything else is refused. |
| MetadataPatch.NormalizeStorageServerPatchValue | handler/v1/model_update_helpers.go:253-264 | The stored value is the JSON array of the normalised labels. |
| MetadataPatch.PatchTextIsField | handler/v1/model_update_helpers.go:253-301 | A text patch stores what the service's field normalisation stores. |
| MetadataPatch.PatchReadsBack | handler/v1/model_update_helpers.go:253-264 | The stored patch parses back to the normalised labels and is already normalised. |
| MetadataPatch.NullPatchIsEmpty | handler/v1/model_update_helpers.go:253-264 | null stores "[]". |
| MetadataPatch.FileNameEntry | handler/v1/model_update_helpers.go:88-97 | A refused string is refused with the string check's error. An accepted string is stored as the trimmed base of that string, which is a plain name. "", "." or "/" gives "<key> is invalid". |
| MetadataPatch.ModelEntry | handler/v1/model_update_helpers.go:12-128 | Immutable keys and unknown keys are refused. The two storage keys are deferred. Everything else is assigned to its own column. |
| MetadataPatch.DatasetEntry | handler/v1/dataset_update_helpers.go:10-144 | The same rules as ModelEntry, applied to the dataset keys. |
| MetadataPatch.KeyEntry | handler/v1/model_update_helpers.go:12-128 | The per-kind entry obeys the shared rules. |
| MetadataPatch.Entries | handler/v1/model_update_helpers.go:12-128 | Each payload key is classified on its own. |
| MetadataPatch.ParseMetadataUpdates | handler/v1/model_update_helpers.go:12-128 | The loop computes MetadataUpdates. |
| MetadataPatch.ScanErrorPersists | handler/v1/model_update_helpers.go:12-128 | The first refused key refuses the patch. |
| MetadataPatch.ScannedOk | handler/v1/model_update_helpers.go:12-128 | A scan succeeds iff every key is accepted and the two storage keys are not both present. |
| MetadataPatch.ScannedUpdates | handler/v1/model_update_helpers.go:12-128 | The scanned updates are the assigned columns, and the storage value comes from a storage key. |
| MetadataPatch.AssignedMeaning | handler/v1/model_update_helpers.go:12-128 | A column is assigned iff some key assigns it, with that key's value. |
| MetadataPatch.ParsedValues | handler/v1/model_update_helpers.go:12-128 | Every accepted value reaches the updates. |
| MetadataPatch.ParsedKeys | handler/v1/model_update_helpers.go:12-128 | No column appears that the payload did not name, apart from storage_server. |
| MetadataPatch.OneStorageEntry | handler/v1/model_update_helpers.go:12-128 | At most one storage key is present. |
| MetadataPatch.ScannedStorage | handler/v1/model_update_helpers.go:12-128 | A storage key's value is the one carried forward. |
| MetadataPatch.ParsedStorage | handler/v1/model_update_helpers.go:12-128 | The storage column holds the normalised patch value. |
| MetadataPatch.ParsedStorageColumn | handler/v1/model_update_helpers.go:12-128 | storage_server is updated iff a storage key is present. |
| MetadataPatch.ParsedRefusal | handler/v1/model_update_helpers.go:12-128 | A late refusal comes from the storage value. |
| MetadataPatch.PatchRefusalText | handler/v1/model_update_helpers.go:253-301 | A storage refusal is never the "no updatable fields" message. |
| MetadataPatch.KeyEntryStorage | handler/v1/model_update_helpers.go:12-128 | A key's entry assigns its own column, and it is a location-set entry exactly for the two location-set keys, singular for one and plural for the other. |
| MetadataPatch.StorageIffKey | handler/v1/model_update_helpers.go:12-128 | The entries carry a location-set entry of one kind exactly when the body carries the matching key. |
| MetadataPatch.EntriesOfPayload | handler/v1/model_update_helpers.go:12-128 | The entries are keyed by the payload, and a storage entry exists iff its key does. |
| MetadataPatch.UpdatesAccepted | handler/v1/model_update_helpers.go:12-128 | An accepted patch has every key accepted and does not use both storage keys. |
| MetadataPatch.UpdatesValues | handler/v1/model_update_helpers.go:12-128 | Each assigned key's parsed value is in the updates. |
| MetadataPatch.UpdatesStorage | handler/v1/model_update_helpers.go:12-128 | Either storage key sets storage_server to the normalised JSON array. |
| MetadataPatch.StorageEntryAt | handler/v1/model_update_helpers.go:12-128 | Storage keys are always deferred, whatever their value. |
| MetadataPatch.StorageColumnSet | handler/v1/model_update_helpers.go:12-128 | storage_server is in the updates iff a storage key was sent. |
| MetadataPatch.UpdatesKeys | handler/v1/model_update_helpers.go:12-128 | The update keys come from the payload, apart from storage_server. |
| MetadataPatch.ImmutableRefused | handler/v1/model_update_helpers.go:12-128 | Any immutable key refuses the patch. |
| MetadataPatch.UnknownRefused | handler/v1/model_update_helpers.go:12-128 | Any unknown key refuses the patch. |
| MetadataPatch.BothStorageKeysRefused | handler/v1/model_update_helpers.go:12-128 | Sending both storage keys refuses the patch. |
| MetadataPatch.ScanRefusal | handler/v1/model_update_helpers.go:12-128 | A scan refusal is the both-keys message or some key's own error. |
| MetadataPatch.RefusalReasons | handler/v1/model_update_helpers.go:12-128 | Every refusal is an empty body, both storage keys, a key's own error, or the storage value's error. |
| MetadataPatch.NeverNoFields | handler/v1/model_update_helpers.go:12-128 | With every key accepted, "no updatable fields provided" cannot occur. |
| MetadataPatch.ServicesAcceptPatch | handler/v1/model_update_helpers.go:12-128 | A parsed patch's file name is plain and its storage value is already normalised, so the service accepts both as given. |
| Controllers.ContainsBaiduStorage | handler/v1/model_controller.go:506-514 | Some label normalises to baidu_netdisk iff the loop says so. |
| Controllers.ShouldAutoUploadToCore | handler/v1/model_controller.go:525-533 | A label triggers the core upload iff it is neither local nor a Baidu label. |
| Controllers.AutoUploadIsRemote | handler/v1/model_controller.go:516-533 | An auto-upload label is non-blank and is neither the backend nor Baidu. other_local always triggers. |
| Controllers.PickFirstNonEmpty | handler/v1/model_controller.go:556-564 | The first non-blank value, trimmed, or "" iff all values are blank. |
| Controllers.ChooseCoreServerKey | handler/v1/model_controller.go:135-162 | Precedence: the key, then the name, then the storage label when it triggers the auto upload, otherwise "". |
| Controllers.SaveRefusalStatus | handler/v1/model_controller.go:164-175 | A missing file and a bad target get 400. A missing path service gets 500. |
| Controllers.CoreLookupStatus | handler/v1/model_controller.go:195-209 | A missing Redis gets 500, a blank key 400, a Redis fault 500, a missing entry 400. A decode error keeps its status. |
| Controllers.CoreLookupFault | handler/v1/model_controller.go:195-209 | A lookup that fails in the store is answered with status 500. |
| Controllers.CoreLookupDecode | handler/v1/model_controller.go:195-209 | A lookup that fails on a stored payload is answered with the status of that payload's decoding error. |
| Controllers.WrappedCoreStatus | handler/v1/handler_helpers.go:22-42 | Wrapping an error in a message keeps the status it is answered with. |
| Controllers.ChosenKeyLookup | handler/v1/model_controller.go:192-194 | A chosen key is never refused as blank, and the server found carries that key. |
| Controllers.DownloadPlanStatus | handler/v1/model_controller.go:433-447 | A planning refusal gets 400 when the service is configured. Otherwise it gets 500. |
| Controllers.PlanRefusals | service/baidupan_download_service.go:94-148 | Every refusal of the Baidu Netdisk download plan is one of the errors the download handler answers with 400. |
| Controllers.AddLabel | handler/v1/baidu_controller.go:223-242 | Adding one label to a clean list appends it once and keeps everything else. |
| Controllers.DownloadAddsBackend | handler/v1/model_controller.go:456-464 | After a Baidu fetch the labels keep their order, gain backend, and still include Baidu. |
| Controllers.FailureOf | handler/v1/handler_helpers.go:22-42 | The reply carries writeHTTPError's status and message. |
| Controllers.ModelController.constructor | handler/v1/model_controller.go:25-32 | The controller holds the given services. |
| Controllers.ModelController.PreparedFileName | handler/v1/model_controller.go:393-398 | The file is served under the base name of the record's trimmed weight name. |
| Controllers.ModelController.Prepared | handler/v1/model_controller.go:377-410 | A bad id gets 400 and a missing record 404. A ready download has a clean label list as stored, the backend path, and a separator-free file name. |
| Controllers.ModelController.DownloadModelFile | handler/v1/model_controller.go:376-467 | A local file is served. Otherwise, without a Baidu label the reply is 404, and without a downloader it is 500. A fetched file is served only after backend is added to the row's labels. A failure leaves the rows unchanged. |
| Controllers.ModelController.Serve | handler/v1/model_controller.go:412-425 | The order is local file, Baidu label, then downloader. |
| Controllers.ModelController.Fetch | handler/v1/model_controller.go:427-466 | A fetched file is in the backend store, and the row's labels are the old labels plus backend. |
| Controllers.DownloadVia | handler/v1/baidu_controller.go:65 | A successful Baidu Netdisk download leaves the file on the local file system. |
| Controllers.BaiduController.constructor | handler/v1/baidu_controller.go:34-41 | The controller holds the given services. |
| Controllers.BaiduController.ResolveSyncTarget | handler/v1/baidu_controller.go:124-155 | Both targets are refused and neither means no record. An id takes precedence. A name lookup finds a row with that name, and reports not found iff there is none. A model found by name has the highest version among rows with that name, and the highest id among equal versions. |
| Controllers.BaiduController.DownloadInput | handler/v1/baidu_controller.go:157-221 | An explicit remote path is used trimmed, and a blank category follows the target. A record-driven download needs storage_target baidu_netdisk and uses the record's Baidu path and category. The file name falls back to the record's. |
| Controllers.BaiduController.ChosenCategoryAccepted | handler/v1/baidu_controller.go:162-171 | A chosen category is one the download service accepts, and it matches the record kind. |
| Controllers.BaiduController.SyncRecordStorageServer | handler/v1/baidu_controller.go:223-242 | With no record nothing changes. Otherwise the label is added to that row only, and reading back gives the result. |
| Controllers.BaiduController.DownloadFileToLocal | handler/v1/baidu_controller.go:44-117 | A downloaded file is in local storage. A synced row's labels are clean, contain the local label and are stored, and the primary label is the first. A refusal leaves every row unchanged. |
| Controllers.BaiduController.ResolveTargetKind | handler/v1/baidu_controller.go:53-57 | Two named records are refused with 400, and the download syncs no record iff none is named. |
| Controllers.BaiduController.DownloadForTarget | handler/v1/baidu_controller.go:59-117 | Once the record is resolved: a bad download input is refused with 400 and no record changes; a download with no record syncs nothing; a synced record's location set holds the normalised label and reads back as reported. |
| Controllers.BaiduController.DownloadAndSync | handler/v1/baidu_controller.go:65-117 | A failed download changes no record; otherwise the label is added to the target record and the reply reports the clean set, its first entry as the primary location. |
| Controllers.BaiduController.AddLocalLabel | handler/v1/baidu_controller.go:91-106 | The label is in the record's location set afterwards, the set is clean and the store reads it back; a failed update changes no record. |

## Left out

- SSH dialling, SFTP sessions, the Baidu Netdisk SDK, GORM's SQL, and the Redis client are not modelled as code. Each is a state map (remote files, rows, a Redis hash) or a failure parameter. The core-server JSON decoding is a decoder function passed in.
- Floating point: sizes are `real`. `BytesToMB` rounds exactly where Go rounds a `float64`. Parsing a float from text, and `json.Valid`, are oracle functions.
- The random UUID behind a stored file name is a parameter (`suffix`).
- Logging, contexts and timeouts have no behaviour to prove and are not modelled.
- MetadataPatch.UintField: a float above 2^64 is accepted as a whole number. The Go conversion to `uint` truncates it, and the model does not.
- MetadataPatch.PatchServers: the `[]string` branch of `parseStorageServerPatchValue` is covered by the `[]interface{}` branch. Decoded JSON never produces a `[]string`.
- MetadataPatch.NeverNoFields: the lemma requires that every key is accepted, and says nothing about patches refused for other reasons.
- MetadataPatch.ParseMetadataUpdates: Go iterates the payload map in random order. The model scans the payload as a sequence of distinct keys. The accepted updates do not depend on the order, but when several keys are bad the model reports the first one in the sequence.
- Dao.Table.FindByName: for datasets, the Go query has no order and returns whichever row the database yields when several rows share a name. The model returns one of them. For models, versions are compared as Go strings, code point by code point. The database collation is not modelled, and neither is the text a numeric version would be stored as.
- Sanitize.SanitizeFileName: `unicode.IsLetter` and `unicode.IsDigit` are modelled by fixed subsets. Letters are ASCII, the Latin-1 letters and the CJK Unified Ideographs block; digits are ASCII only. Go keeps every Unicode letter and digit, for example "αβ" or the Arabic-Indic digits "٣٤", where the model writes `_`. The stored names that `GenerateStoredFileName` builds from it differ for such names in the same way.
- Upload.UploadService.Save: the local `os.MkdirAll`, `os.Create`, `file.Open` and `io.Copy` failures (upload_service.go:101-120) are not modelled. In the model an accepted upload is always written.
- Upload.UploadService.WriteLocal: the same local directory, create, open and copy failures are not modelled.
- BaiduPan.DownloadService.DownloadToLocal: the failures of `os.MkdirAll` before the download ("create local download dir failed") and of `os.Stat` after it ("stat local downloaded file failed") are not modelled. The SDK failure is a parameter.
- SSHTransfer.UploadPlan: an `os.Stat` failure other than a missing file ("stat local source file failed") is not modelled. The local file system is a map, so a stat either finds the entry or reports it missing.
- SSHTransfer.LocalRegular: the generic `os.Stat` error of `localRegularFileExists` is not modelled, for the same reason. Only "missing" and "not a regular file" are.
- SSHTransfer.TransferService.UploadFileByPath: the local `os.Open` and `Stat` failures in the SFTP client ("open local file failed", "stat local file failed") are not modelled.
- SSHTransfer.IsNotExistError: the errors of the SFTP client's `Open` and `Stat` are not modelled. The remote files are a map, and a missing remote file is one absent from it, so the model's transfers do not call this predicate. It states the classification the client applies.
- SSHTransfer.TransferService.DownloadFileByPath: the local `os.MkdirAll`, `os.Create` and `io.Copy` failures ("create local directory failed", "create local file failed", "write local file failed") are not modelled. In the model a found remote file is always copied.
- Pagination.Pagination: page numbers are unbounded integers. Go computes `(page-1)*pageSize` in a 64-bit `int` that nothing bounds from above, so for pages beyond about 2^63/pageSize the offset wraps and can be negative. The model does not capture this, and its `offset >= 0` holds only below that bound.
- Pagination.QueryParams.GetOffset: the same 64-bit wrap of `(Page-1)*PageSize` is not modelled.
- Dao.Table.FindAll: its page window comes from Pagination.Pagination and inherits the unmodelled 64-bit wrap of the offset.
- `ErrInvalidUploadSubdir` is never returned by the upload code, so its status case has no model.
- Local file systems are separate maps per service (upload, Baidu download, record service), not one shared disk.
- Controllers.ModelController.Fetch: the "downloaded file not found in backend storage" re-check is not modelled. In the model the download always leaves the file in place.
- Controllers.ChooseCoreServerKey: only the key choice and status mapping of `UploadModelFile` are modelled. `uploadModelToCoreServer` and the rest of `UploadModelFile` are left out: the SSH upload, the home directory and key-path probing in `resolveDefaultSSHPrivateKeyPath`, the weight-size sync and the response map. These are I/O around the modelled services.
- The dataset controller, the training-result code and the older `internal/service` tree are not part of this model.
- CoreServers.SortedKeys: `sort.Strings` is modelled by insertion into an ascending list. Only the sorted result matters.
- CoreServers.ListCoreServers: keys are listed untrimmed. A key stored with surrounding space is therefore listed but cannot be fetched by `GetCoreServerByKey`, which trims. ListedIsFetched requires a trimmed key for this reason.
- ArtifactPaths.BuildPathUnderRoot: the file name ".." passes `normalizeArtifactFileName` and escapes the root (BuildPathDotDotEscapes). The lemmas that place a path under its root therefore exclude "..", and the model keeps the code's behaviour.

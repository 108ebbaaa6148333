# supa-api `POST /upload`, modelled in Dafny

The Supabase API server takes one multipart request that carries:
- a parent submission (`type`, `contractorName`, `projectName`, `notes`);
- any number of files;
- an optional JSON text, `supporting_files_metadata`, that lists groups of
  supporting documents.

The handler does the following, in order:
1. Insert one row into `uploads`.
2. Store the first file sent under each of three fixed form fields. The
   storage path is `uploads/<id>/<field>/<basename>`.
3. Walk the metadata groups and their items. For each item whose `filename`
   is the client name of some uploaded file, store that file under
   `uploads/<id>/<type>/<basename>`.
4. For every stored file, ask for a signed URL and insert a
   `supporting_files` row.
5. Remove multer's temporary files.
6. Answer `{ ok: true, uploadId, files }`. Any thrown error answers
   `{ ok: false }` instead.

The project has four modules.
- `JsValues`: the JavaScript values the handler reads. It also defines the
  coercions the handler applies: truthiness (`x || null`), nullishness
  (`x ?? null`) and template interpolation (`${x}`).
- `PosixPath`: Node's `path.basename` for POSIX paths.
- `UploadModel`: the handler as a specification.
  - The entities, and the replies of the services the handler calls. The
    replies are an `Env` parameter.
  - The plan: which file goes to which path, in which order, under which
    labels.
  - The run: storing each planned file until the first storage error.
  - `Handle`: for one request, the response and the new state of the
    bucket, the two tables and the temporary files.
- `UploadProperties`: what the handler promises, proved about `Handle` and
  its parts.
- `SupaApi`: class `Supabase`, which holds the state of the stores.
  - Its methods perform the handler's loops step by step, as the handler does.
  - `HandleUpload` is proved to end in exactly the state and response that
    `Handle` gives.

Where the system's documented design and the code differ, the model follows
the code:
- Metadata that is a single object (`{ mode, items }`) is not wrapped into
  a group. `for ... of` throws on it, and the request fails after the
  required files were already stored (`NonArrayMetadataFails`).
- There is no field-name-prefix fallback, and no label made up from the
  field name. A file that no required field and no metadata item names is
  simply not stored, and is not in the response.
- A required field's file is still matched by a metadata item of the same
  name. It is then stored a second time, under the item's folder.
- Errors are not isolated per file. The first storage error, such as an
  existing path (`upsert: false`) or a refusal, fails the whole request.
  Everything stored before it stays stored (`HandleStorageFailure`,
  `RepeatedItemFails`).
- Temporary files are removed only on success.
- A rejected `supporting_files` insert is ignored: the row is missing and
  the file still appears in the response.
- Paths are unique across submissions only while upload ids hold no slash
  (`DestPathSeparatesUploads`, `DestPathsCollideAcrossSlashedIds`).
- The listing, detail and deletion endpoints are not part of this handler.

## Model

| member | source | states |
|---|---|---|
| JsValues.OrNull | supa-api/index.js:163-165 | `x \|\| null` is `null` exactly when `x` is falsy, and otherwise is `x` |
| JsValues.Truthy | supa-api/index.js:129-130 | `null` and `undefined` are falsy and every object is truthy |
| JsValues.FalsyButNotNullish | supa-api/index.js:163-167 | `0` and `""` are turned into `null` by `\|\| null` but kept by `?? null` |
| JsValues.TemplateText | supa-api/index.js:140 | `${x}` gives a string's own text and a number's written form; any other value gives a fixed non-empty word without a slash |
| JsValues.Coalesce | supa-api/index.js:166-167 | `x ?? null` is `null` exactly when `x` is `null` or `undefined`, and otherwise is `x` |
| PosixPath.StripTrailingSlashesSpec | supa-api/index.js:89 | `path.basename` first drops only trailing slashes, keeping a prefix that does not end in one |
| PosixPath.AfterLastSlashSpec | supa-api/index.js:89 | the name is the longest slash-free suffix, preceded by a slash unless it is the whole path |
| PosixPath.Basename | supa-api/index.js:89 | a basename never contains a slash and is never longer than the name it came from |
| PosixPath.BasenameOfPlainName | supa-api/index.js:89 | a client name without a slash is kept unchanged |
| PosixPath.AfterLastSlashOfJoin | supa-api/index.js:89 | the name after `dir/` is recovered whatever `dir` is |
| UploadModel.FirstWithFieldname | supa-api/index.js:87 | a found index points at a file sent under that field; with no files nothing is found |
| UploadModel.FirstWithOriginalname | supa-api/index.js:134 | a found index points at a file whose client name strictly equals the item's `filename`; a `filename` that is not a string finds nothing |
| UploadModel.DestPath | supa-api/index.js:89 | a destination is `uploads/<id>/<folder>/` followed by a name without a slash |
| UploadModel.RequiredJobFor | supa-api/index.js:86-90 | a required field stores at most one file, sent under that field, labelled with that field |
| UploadModel.RequiredJobs | supa-api/index.js:86-111 | the required fields store no more files than there are fields, each labelled with one of the fields (one per field when the names are distinct, by `RequiredJobsOnePerField`) |
| UploadModel.ItemJobFor | supa-api/index.js:132-140 | an item stores at most one file, whose client name is the item's `filename`, labelled with that item and its group's type and title |
| UploadModel.ItemJobs | supa-api/index.js:132-169 | a group's items store no more files than there are items, each labelled with one of those items and the group's type |
| UploadModel.GroupJobs | supa-api/index.js:128-132 | a group stores no more files than it has items, each under the group's `type` |
| UploadModel.SupportJobs | supa-api/index.js:127-170 | every file the metadata stores is labelled as a metadata item |
| UploadModel.Plan | supa-api/index.js:86-170 | all required-field files come first, then only metadata files |
| UploadModel.InfoOf | supa-api/index.js:103-109 | a response record names the file's client name, its recorded path and its signed URL, and is a required-file record exactly for a required field |
| UploadModel.RowOf | supa-api/index.js:94-101 | a `supporting_files` row carries the upload id, the client name and the recorded path, and the same type and label as the response record |
| UploadModel.TmpPaths | supa-api/index.js:173-175 | the temporary files to remove are exactly those of the uploaded files |
| UploadModel.StoragePathOf | supa-api/index.js:35 | the recorded path is the path the storage reply names, or the requested path when the reply names none or the empty one |
| UploadModel.StoreObject | supa-api/index.js:30-36 | with `upsert: false`, an upload succeeds exactly when the path is not yet in the bucket and the service writes it; otherwise it throws an error naming that path |
| UploadModel.SignedUrl | supa-api/index.js:39-46 | a signing error gives `null`; a URL is only ever the one the reply carries |
| UploadModel.FirstWithFieldnameSpec | supa-api/index.js:87 | `files.find` by form field returns the first file sent under that field, and finds none only when no file was |
| UploadModel.FirstWithOriginalnameSpec | supa-api/index.js:134 | `files.find` by client name returns the first file whose name strictly equals the item's `filename`, and finds none only when no file's does |
| UploadModel.SupportMeta | supa-api/index.js:113-127 | an absent field and unparseable JSON both leave the empty list; only JSON that `for ... of` cannot walk stops the walk |
| UploadModel.DbCoordinate | supa-api/index.js:154-155 | the latitude/longitude column keeps a JSON number, converts any other truthy value, and the value inserted is `null` exactly for a falsy non-number |
| UploadModel.Accepted | supa-api/index.js:145-156 | a rejected row insert leaves no row and stops nothing; every kept row was inserted and accepted |
| UploadModel.RunProgress | supa-api/index.js:86-170 | the files are stored in order up to the first storage error; the run completes exactly when no error occurs, and the error names the failing file's destination |
| UploadModel.AfterStoring | supa-api/index.js:94-101 | storing files adds objects and rows and never removes any; `uploads` and the temporary files are untouched |
| UploadModel.Infos | supa-api/index.js:103-109 | one response record per stored file |
| UploadModel.Rows | supa-api/index.js:94-101 | one `supporting_files` insert per stored file |
| UploadModel.Proceed | supa-api/index.js:86-177 | after the parent insert, `uploads` is unchanged; success removes the temporary files and reports the upload id; failure leaves the temporary files; objects and rows are only ever added |
| UploadModel.Handle | supa-api/index.js:49-182 | a failed parent insert changes nothing and answers `ok: false`; otherwise exactly one parent row is added; success removes exactly the request's temporary files that can be unlinked, failure removes none; the bucket and `supporting_files` only grow |
| UploadProperties.DestPathBasename | supa-api/index.js:89 | when the client's file name has a non-empty basename, the stored object keeps it as its own name |
| UploadProperties.DestPathInjective | supa-api/index.js:89 | within one upload, two destinations are equal exactly when folder and basename are equal |
| UploadProperties.JoinSplit | supa-api/index.js:140 | a path joined from a folder and a slash-free name determines both |
| UploadProperties.DestPathSeparatesUploads | supa-api/index.js:140 | two uploads whose ids hold no slash never share a destination |
| UploadProperties.DestPathsCollideAcrossSlashedIds | supa-api/index.js:89 | with a slash allowed in the ids, two uploads can share a destination |
| UploadProperties.RequiredJobForSpec | supa-api/index.js:86-90 | a required field stores nothing when no file came in under it, and otherwise stores the first such file under `uploads/<id>/<field>/<basename>` |
| UploadProperties.ItemJobForSpec | supa-api/index.js:132-140 | an item stores nothing when no file has its name, and otherwise stores the first such file, whatever its form field, under `uploads/<id>/<type>/<basename>` |
| UploadProperties.RequiredJobsShape | supa-api/index.js:86-90 | there are no more required-field uploads than fields; each belongs to one field, takes the first file sent under it, and goes to that field's folder |
| UploadProperties.RequiredJobsOnePerField | supa-api/index.js:86-90 | with distinct field names, no two required-field uploads belong to the same field |
| UploadProperties.RequiredDestsDistinct | supa-api/index.js:80-89 | required fields with distinct names never store to the same path |
| UploadProperties.RequiredFieldsDistinct | supa-api/index.js:80-84 | the three fixed fields store at most three files, at most one per field, all to distinct paths |
| UploadProperties.UnmatchedItemNoJobs | supa-api/index.js:134-138 | an item matching no uploaded file adds nothing to its group's uploads |
| UploadProperties.UnmatchedItemInert | supa-api/index.js:132-138 | an item matching no uploaded file can be added to any group without changing what is stored |
| UploadProperties.ItemRecordNulls | supa-api/index.js:145-168 | in an item's record and row, `label`, `station`, `caption` and `title` are `null` exactly when falsy; the record's `lat`/`lon` are `null` exactly when nullish and are otherwise kept; the row's coordinate values are `null` exactly for a falsy non-number |
| UploadProperties.RequiredRecordLabels | supa-api/index.js:94-109 | a required file's record and row carry type `required`, the field's fixed label as both title and label, and the recorded path |
| UploadProperties.DestsMember | supa-api/index.js:141 | a path is among the stored destinations exactly when some stored file was sent there |
| UploadProperties.RecordsIndex | supa-api/index.js:103-109 | the `k`-th record and the `k`-th insert belong to the `k`-th stored file |
| UploadProperties.RunProgressAppend | supa-api/index.js:111-127 | storing two lists of files is storing the first, then, unless it stopped, the second against the bucket the first left |
| UploadProperties.AfterStoringAppend | supa-api/index.js:111-127 | the effects of two consecutive lists of files compose |
| UploadProperties.OneJob | supa-api/index.js:140-168 | one file: the upload is tried against the bucket as it is; on success its object, its row unless rejected, and a record with its recorded path and that path's signed URL are added; otherwise nothing changes and the request stops |
| UploadProperties.RunChunk | supa-api/index.js:127-170 | a run of more files from where a complete run left the stores is the run of both lists together |
| UploadProperties.RunStopsWithin | supa-api/index.js:178-180 | an error thrown within a prefix of the files ends the whole run there |
| UploadProperties.StagedRequiredFails | supa-api/index.js:90 | a storage error among the required files fails the request before the metadata is looked at |
| UploadProperties.StagedMetadataFails | supa-api/index.js:127 | metadata that cannot be walked fails the request once the required files are stored |
| UploadProperties.StagedSupport | supa-api/index.js:127-177 | the metadata files are stored from where the required files left the stores; success returns the records of both stages in order and removes the temporary files |
| UploadProperties.RunProgressOkIff | supa-api/index.js:30-36 | a run completes exactly when no destination is already in the bucket, none is planned twice, and the service writes each one; signing errors and rejected inserts never stop it |
| UploadProperties.HandleOkIff | supa-api/index.js:49-182 | the request succeeds exactly when the parent row is inserted, the metadata can be walked, and every planned file can be written |
| UploadProperties.HandleSuccess | supa-api/index.js:172-177 | on success the response lists one record per planned file in plan order, with the same paths as the rows inserted in that order; the bucket gains exactly the planned paths; one parent row is added; the temporary files that can be unlinked are gone |
| UploadProperties.HandleStorageFailure | supa-api/index.js:178-180 | a storage error ends the request: the stores keep exactly the files planned before the failing one, and the error names the failing destination |
| UploadProperties.ParentFailureTouchesNothing | supa-api/index.js:60-71 | a failed parent insert stores, inserts and removes nothing |
| UploadProperties.AbsentMetadataOnlyRequired | supa-api/index.js:114-122 | absent or unparseable metadata behaves as an empty list; only required files, at most three, are recorded |
| UploadProperties.NonArrayMetadataFails | supa-api/index.js:127 | metadata that `for ... of` cannot walk (an object, a number, a boolean, `null`) fails the request after the required files were stored, and keeps the temporary files |
| UploadProperties.UnmatchedItemIgnored | supa-api/index.js:134-138 | an item naming no uploaded file leaves no trace in the response or the stores |
| UploadProperties.RepeatedItemPlannedTwice | supa-api/index.js:132-140 | two items of one group naming the same uploaded file send it to the same destination twice |
| UploadProperties.RepeatInGroupRepeatsInPlan | supa-api/index.js:127-141 | a destination repeated within one group is repeated in the whole metadata plan |
| UploadProperties.RepeatBreaksClean | supa-api/index.js:33 | a destination planned twice among the metadata files means the plan cannot be stored cleanly |
| UploadProperties.RepeatedItemFails | supa-api/index.js:33 | listing the same uploaded file twice in one group fails the whole request, because the second upload does not overwrite |
| SupaApi.Supabase.UploadFileToStorage | supa-api/index.js:30-36 | the upload refuses an existing path or a path the service refuses; otherwise it adds exactly the requested path to the bucket and returns the recorded path |
| SupaApi.Supabase.InsertUpload | supa-api/index.js:60-69 | the parent row is appended to `uploads` |
| SupaApi.Supabase.InsertSupportingFile | supa-api/index.js:145-156 | the row is appended unless the database rejects it; the error is not read |
| SupaApi.Supabase.Unlink | supa-api/index.js:174 | a temporary file that can be unlinked is gone afterwards; one that cannot stays, and its error is swallowed |
| SupaApi.Supabase.StoreJob | supa-api/index.js:140-156 | upload, then sign the recorded path, then insert the row; a storage error stops before signing and inserting |
| SupaApi.Supabase.RunJob | supa-api/index.js:140-168 | one matched file, carried out, ends where `OneJob` says |
| SupaApi.Supabase.StoreRequired | supa-api/index.js:86-111 | the loop over the fixed fields ends in the state, records and error of running the required-field plan |
| SupaApi.Supabase.StoreGroup | supa-api/index.js:132-169 | the loop over a group's items ends in the state, records and error of running that group's plan |
| SupaApi.Supabase.StoreSupport | supa-api/index.js:127-170 | the loop over the groups ends in the state, records and error of running the whole metadata plan |
| SupaApi.Supabase.RemoveTmpFiles | supa-api/index.js:173-175 | exactly the uploaded files' temporary files are removed, except those that cannot be unlinked |
| SupaApi.Supabase.HandleUpload | supa-api/index.js:49-182 | the handler, carried out step by step, ends in exactly the stores and response `Handle` specifies |
| SupaApi.RequiredStep | supa-api/index.js:86-111 | one turn of the required-field loop extends the run by that field's file, or ends it with that file's error |
| SupaApi.ItemStep | supa-api/index.js:132-169 | one turn of the item loop extends the run by that item's file, or ends it with that file's error |
| SupaApi.GroupStep | supa-api/index.js:127-170 | one turn of the group loop extends the run by that group's files, or ends it with their error |

## Left out

- The HTTP layer is not modelled: Express routing, CORS, `express.json`, multer's parsing and disk staging, `dotenv`, the environment check and `app.listen`. The files arrive as a list of (field, client name, temporary path).
- The services are a parameter, not modelled. These are the `uploads` insert and its id, the storage upload reply, the signing reply, which `supporting_files` inserts the database rejects, and which temporary files cannot be unlinked. Storage and signing replies are looked up by path, with defaults for unlisted paths.
- Awaiting and concurrency are not modelled: the handler's calls run one after another, as the `await`s make them.
- `JSON.parse` itself is not modelled: the metadata arrives already classified as absent, malformed, a list of groups, or not iterable. A JSON string is iterable: it walks its characters, each a group with no items, so it is a `GroupList` of item-less groups.
- Groups and items that are `null` are not modelled. The handler reads properties from them and throws at `supType.type` or `it.filename`. A group that is a number, a boolean or a string reads `undefined` for every property, so it is an item-less group; such an item reads an `undefined` `filename` and matches no file. Both are covered by the `Group` and `Item` values.
- `Val` has no array case. `${type}` of an array is its elements joined by commas (`${["a","b"]}` is `a,b`), and an array `type` is not modelled.
- A group whose `items` is truthy but cannot be iterated (an object, a number) is not modelled. The handler throws there; a group here always carries a list of items.
- UploadModel.DbCoordinate: does not model the `Number(...)` conversion of a truthy non-number (a string, `true` or an object). The column records which value was converted. In particular it does not say that a conversion giving `NaN` (`"abc"`, an ordinary object) is sent as `null` in the JSON body, so that column is `NULL` too. An object with its own `toString` or `valueOf` key is not modelled: `Number(...)` at index.js:154-155 throws on it and the request fails.
- JsValues.TemplateText: a number is interpolated as the text it carries. Floating-point formatting is left out. An object with its own `toString` or `valueOf` key is not modelled: `${type}` at index.js:140 throws on it, and the request fails with the files planned before it already stored, while the model files it under `[object Object]`.
- The signed URL's expiry time and the bucket name are configuration and are not modelled. So is the reply's `signedURL` property name, which is taken as the handler names it.
- Logging (`console.warn`, `console.error`) and the error text `String(err)` are left out. The response carries the fault itself.
- The `uploads` row id is taken as text, however the database types it.
- The connection test script is not part of this model.

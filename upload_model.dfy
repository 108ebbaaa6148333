/** The `POST /upload` handler of the Supabase API as a specification: the
    entities it reads and writes, the replies of the services it calls, and
    the function `Handle` that gives, for one request, the response and the
    new state of the stores.

    The handler is split in two halves that the handler interleaves:
    - the PLAN (`RequiredJobs`, `ItemJobs`, `SupportJobs`): which uploaded
      file goes to which storage path, in which order, under which labels;
      it depends only on the request;
    - the RUN (`RunProgress`, `AfterStoring`, `Infos`): writing each
      planned file to the bucket, asking for a signed URL, inserting its
      `supporting_files` row and collecting its response record, stopping
      at the first storage error.
    Nothing in the plan depends on what the run does, so the two halves
    compose to what the interleaved handler does; the class `Supabase`
    performs them interleaved, as the handler does, and is proved to agree
    with `Handle`. */
module UploadModel {
  import opened JsValues
  import opened PosixPath

  // ---------------------------------------------------------------------
  // Request

  /** A file staged on disk by multer: the form field it came in, the name
      the client gave it, and the temporary file holding its bytes. */
  datatype UploadedFile = UploadedFile(fieldname: string, originalname: string, path: string)

  /** One entry of a metadata group. */
  datatype Item = Item(filename: Val, labelText: Val, station: Val, caption: Val, lat: Val, lon: Val)

  /** One group of the metadata array; `docType` is the group's `type`
      property. A group without `items` has the empty sequence here, as
      `supType.items || []` makes it. */
  datatype Group = Group(docType: Val, title: Val, items: seq<Item>)

  /** What `JSON.parse` makes of the `supporting_files_metadata` field:
      the field is absent or empty, the text is not JSON, it is a JSON
      array of groups, or it is JSON that `for ... of` cannot iterate (an
      object, a number, a boolean, `null`). */
  datatype Metadata = NotSent | Malformed | GroupList(groups: seq<Group>) | NotIterable

  datatype RequestBody = RequestBody(
    uploadType: Val, contractorName: Val, projectName: Val, notes: Val, metadata: Metadata)

  /** A fixed upload field with the document type and label it is filed under. */
  datatype RequiredField = RequiredField(field: string, docType: string, labelText: string)

  const RequiredFields: seq<RequiredField> := [
    RequiredField("required_letter_request", "required",
                  "Letter Request of the Contractor for Contract Time Resumption"),
    RequiredField("required_approved_suspension", "required", "Approved Suspension Order"),
    RequiredField("required_certified_contract", "required", "Certified True Copy of Original Contract")
  ]

  // ---------------------------------------------------------------------
  // Stores and their rows

  /** A row of the `uploads` table; `id` is assigned by the database. */
  datatype UploadRow = UploadRow(id: string, uploadType: Val, contractorName: Val, projectName: Val, notes: Val)

  /** A numeric value inserted: `null`, a JSON number, or `Number(v)` of a
      truthy non-number (the conversion itself, and the `NaN` it can give,
      are not modelled). */
  datatype DbNumber = DbNull | DbValue(value: real) | DbCoerced(from: Val)

  /** A row of the `supporting_files` table. The rows for required fields
      do not send `station`, `caption`, `latitude` or `longitude`; those
      columns are `Undefined` and `DbNull` here. */
  datatype SupportRow = SupportRow(
    uploadId: string, docType: Val, docTitle: Val, labelText: Val, filename: string,
    storagePath: string, station: Val, caption: Val, latitude: DbNumber, longitude: DbNumber)

  /** The abstract state of the three stores the handler touches: the
      object paths in the storage bucket, the two tables, and the temporary
      files multer left on disk. */
  datatype Stores = Stores(
    bucket: set<string>, uploads: seq<UploadRow>, supportingFiles: seq<SupportRow>, tmpFiles: set<string>)

  // ---------------------------------------------------------------------
  // Replies of the external services

  datatype InsertReply = Inserted(id: string) | InsertFailed(message: string)

  /** The storage service's answer to an upload to a path that is not in the
      bucket yet: written (with the `path` its reply data may carry), or
      refused for some other reason. */
  datatype StorageReply = Written(path: Option<string>) | Refused(message: string)

  /** The answer to a signed-URL request: an error, or reply data whose
      `signedURL` property may be missing. */
  datatype SignReply = SignFailed(message: string) | SignData(signedURL: Option<string>)

  /** How the outside world answers. The storage service writes any path
      without an entry in `storageReplies` and reports no path; the signing
      service fails for any path without an entry in `signReplies`; the
      database rejects exactly the rows in `rejectedRows`; `fs.unlinkSync`
      fails (permissions, a busy file) on exactly the temporary files in
      `unlinkFails`, which then stay on disk. */
  datatype Env = Env(
    insertUpload: InsertReply,
    storageReplies: map<string, StorageReply>,
    signReplies: map<string, SignReply>,
    rejectedRows: set<SupportRow>,
    unlinkFails: set<string>)
  {
    function StorageReplyFor(dest: string): StorageReply {
      if dest in storageReplies then storageReplies[dest] else Written(None)
    }

    function SignReplyFor(path: string): SignReply {
      if path in signReplies then signReplies[path] else SignFailed("no reply")
    }
  }

  // ---------------------------------------------------------------------
  // Response

  /** Every error the handler's `catch` turns into `{ ok: false }`. */
  datatype Fault =
    | ParentInsertFailed(message: string)
    | AlreadyExists(path: string)
    | StorageRefused(path: string, message: string)
    | MetadataNotIterable

  /** One entry of the response's `files` list. */
  datatype FileInfo =
    | RequiredInfo(filename: string, storagePath: string, signedUrl: Option<string>, docType: Val, labelText: Val)
    | SupportInfo(filename: string, storagePath: string, signedUrl: Option<string>, docType: Val, labelText: Val,
                  station: Val, caption: Val, lat: Val, lon: Val)

  /** `{ ok: true, uploadId, files }` or `{ ok: false, error }`. */
  datatype Response = Uploaded(uploadId: string, files: seq<FileInfo>) | UploadFailed(error: Fault)

  // ---------------------------------------------------------------------
  // The two helpers

  /** `data?.path || destPath`: the path the storage reply names, unless it
      names none or the empty one. */
  function StoragePathOf(reported: Option<string>, dest: string): (p: string)
    ensures p == dest || (reported == Some(p) && p != "")
    ensures reported.Some? && reported.value != "" ==> p == reported.value
  {
    if reported.Some? && reported.value != "" then reported.value else dest
  }

  datatype Stored = StoredAt(path: string) | StoreFailed(fault: Fault)

  /** `uploadFileToStorage` with `upsert: false`: an upload to a path that is
      already in the bucket fails, and so does one the service refuses;
      otherwise the object is stored and its recorded path returned. */
  function StoreObject(bucket: set<string>, dest: string, reply: StorageReply): (r: Stored)
    ensures r.StoredAt? <==> dest !in bucket && reply.Written?
    ensures dest in bucket ==> r == StoreFailed(AlreadyExists(dest))
    ensures r.StoreFailed? ==> (r.fault.AlreadyExists? || r.fault.StorageRefused?) && r.fault.path == dest
    ensures r.StoredAt? ==> r.path == StoragePathOf(reply.path, dest)
  {
    if dest in bucket then StoreFailed(AlreadyExists(dest))
    else match reply
      case Refused(m) => StoreFailed(StorageRefused(dest, m))
      case Written(reported) => StoredAt(StoragePathOf(reported, dest))
  }

  /** `createSignedUrlForPath`: an error reply and a reply without a URL
      both give `null`; nothing here can fail. */
  function SignedUrl(reply: SignReply): (url: Option<string>)
    ensures reply.SignFailed? ==> url == None
    ensures reply.SignData? ==> url == reply.signedURL
    ensures url.Some? ==> reply == SignData(url)
  {
    match reply
    case SignFailed(_) => None
    case SignData(u) => u
  }

  /** The path a successful upload to `dest` is recorded under. */
  function RecordedPath(env: Env, dest: string): string {
    match env.StorageReplyFor(dest)
    case Written(reported) => StoragePathOf(reported, dest)
    case Refused(_) => dest
  }

  // ---------------------------------------------------------------------
  // Matching files (`files.find`)

  /** The position of the first file uploaded under form field `name`. */
  function FirstWithFieldname(files: seq<UploadedFile>, name: string): (r: Option<nat>)
    ensures r.Some? ==> r.value < |files| && files[r.value].fieldname == name
    ensures files == [] ==> r == None
  {
    if files == [] then None
    else if files[0].fieldname == name then Some(0)
    else match FirstWithFieldname(files[1..], name)
      case None => None
      case Some(k) => Some(k + 1)
  }

  /** `files.find(f => f.fieldname === name)`: the found file came in under
      `name`, and no file before it did; none is found only when no file
      came in under `name`. */
  lemma {:induction false} FirstWithFieldnameSpec(files: seq<UploadedFile>, name: string)
    ensures var r := FirstWithFieldname(files, name);
      && (r.Some? ==> files[r.value].fieldname == name)
      && forall j :: 0 <= j < (if r.Some? then r.value else |files|) ==> files[j].fieldname != name
    decreases |files|
  {
    if files != [] && files[0].fieldname != name {
      FirstWithFieldnameSpec(files[1..], name);
      var r := FirstWithFieldname(files, name);
      forall j | 1 <= j < (if r.Some? then r.value else |files|) ensures files[j].fieldname != name {
        assert files[j] == files[1..][j - 1];
      }
    }
  }

  /** The position of the first file whose client name is strictly equal to
      `filename` (so a `filename` that is not a string matches nothing). */
  function FirstWithOriginalname(files: seq<UploadedFile>, filename: Val): (r: Option<nat>)
    ensures r.Some? ==> r.value < |files| && filename == Str(files[r.value].originalname)
    ensures !filename.Str? ==> r == None
  {
    if files == [] then None
    else if filename == Str(files[0].originalname) then Some(0)
    else match FirstWithOriginalname(files[1..], filename)
      case None => None
      case Some(k) => Some(k + 1)
  }

  /** `files.find(f => f.originalname === filename)`: the found file has
      that client name, no file before it does, and none is found only when
      no file does. */
  lemma {:induction false} FirstWithOriginalnameSpec(files: seq<UploadedFile>, filename: Val)
    ensures var r := FirstWithOriginalname(files, filename);
      && (r.Some? ==> filename == Str(files[r.value].originalname))
      && forall j :: 0 <= j < (if r.Some? then r.value else |files|) ==> filename != Str(files[j].originalname)
    decreases |files|
  {
    if files != [] && filename != Str(files[0].originalname) {
      FirstWithOriginalnameSpec(files[1..], filename);
      var r := FirstWithOriginalname(files, filename);
      forall j | 1 <= j < (if r.Some? then r.value else |files|) ensures filename != Str(files[j].originalname) {
        assert files[j] == files[1..][j - 1];
      }
    }
  }

  // ---------------------------------------------------------------------
  // The plan

  /** `uploads/<uploadId>/<segment>/<basename of the client's name>`: the
      upload's folder for that segment, then a name without a slash. */
  function DestPath(uploadId: string, segment: string, originalname: string): (d: string)
    ensures var dir := "uploads/" + uploadId + "/" + segment + "/";
      |dir| <= |d| && d[..|dir|] == dir && '/' !in d[|dir|..]
  {
    var dir := "uploads/" + uploadId + "/" + segment + "/";
    assert (dir + Basename(originalname))[|dir|..] == Basename(originalname);
    dir + Basename(originalname)
  }

  datatype JobKind =
    | ForRequired(field: RequiredField)
    | ForItem(docType: Val, title: Val, item: Item)

  /** One file to store: which uploaded file, where, and on whose behalf. */
  datatype Job = Job(file: UploadedFile, dest: string, kind: JobKind)

  /** The job a required field yields: none if no file came in that field. */
  function RequiredJobFor(rf: RequiredField, files: seq<UploadedFile>, uploadId: string): (jobs: seq<Job>)
    ensures |jobs| <= 1
    ensures forall j :: j in jobs ==> j.kind == ForRequired(rf) && j.file.fieldname == rf.field
  {
    match FirstWithFieldname(files, rf.field)
    case None => []
    case Some(k) => [Job(files[k], DestPath(uploadId, rf.field, files[k].originalname), ForRequired(rf))]
  }

  function RequiredJobs(fields: seq<RequiredField>, files: seq<UploadedFile>, uploadId: string): (jobs: seq<Job>)
    ensures |jobs| <= |fields|
    ensures forall j :: j in jobs ==> j.kind.ForRequired? && j.kind.field in fields
    decreases |fields|
  {
    if fields == [] then []
    else RequiredJobs(fields[..|fields| - 1], files, uploadId) + RequiredJobFor(fields[|fields| - 1], files, uploadId)
  }

  /** The job a metadata item yields: none if no file has its `filename`. */
  function ItemJobFor(docType: Val, title: Val, it: Item, files: seq<UploadedFile>, uploadId: string): (jobs: seq<Job>)
    ensures |jobs| <= 1
    ensures forall j :: j in jobs ==> j.kind == ForItem(docType, title, it) && it.filename == Str(j.file.originalname)
  {
    match FirstWithOriginalname(files, it.filename)
    case None => []
    case Some(k) =>
      [Job(files[k], DestPath(uploadId, TemplateText(docType), files[k].originalname), ForItem(docType, title, it))]
  }

  function ItemJobs(docType: Val, title: Val, items: seq<Item>, files: seq<UploadedFile>, uploadId: string): (jobs: seq<Job>)
    ensures |jobs| <= |items|
    ensures forall j :: j in jobs ==> j.kind.ForItem? && j.kind.docType == docType && j.kind.item in items
    decreases |items|
  {
    if items == [] then []
    else ItemJobs(docType, title, items[..|items| - 1], files, uploadId)
         + ItemJobFor(docType, title, items[|items| - 1], files, uploadId)
  }

  function GroupJobs(g: Group, files: seq<UploadedFile>, uploadId: string): (jobs: seq<Job>)
    ensures |jobs| <= |g.items|
    ensures forall j :: j in jobs ==> j.kind.ForItem? && j.kind.docType == g.docType
  {
    ItemJobs(g.docType, g.title, g.items, files, uploadId)
  }

  function SupportJobs(groups: seq<Group>, files: seq<UploadedFile>, uploadId: string): (jobs: seq<Job>)
    ensures forall j :: j in jobs ==> j.kind.ForItem?
    decreases |groups|
  {
    if groups == [] then []
    else SupportJobs(groups[..|groups| - 1], files, uploadId) + GroupJobs(groups[|groups| - 1], files, uploadId)
  }

  /** Every file the request stores, in the order it stores them: the
      required fields' files first, then the metadata's. */
  function Plan(groups: seq<Group>, files: seq<UploadedFile>, uploadId: string): (plan: seq<Job>)
    ensures var n := |RequiredJobs(RequiredFields, files, uploadId)|;
      n <= |plan| && forall k :: 0 <= k < |plan| ==> (plan[k].kind.ForRequired? <==> k < n)
  {
    RequiredJobs(RequiredFields, files, uploadId) + SupportJobs(groups, files, uploadId)
  }

  /** The groups the metadata loop walks, or `None` when `for ... of`
      throws on the parsed value. An absent field and a parse error both
      leave the initial empty list. */
  function SupportMeta(m: Metadata): (groups: Option<seq<Group>>)
    ensures m.NotSent? || m.Malformed? ==> groups == Some([])
    ensures m.GroupList? ==> groups == Some(m.groups)
    ensures groups.None? <==> m.NotIterable?
  {
    match m
    case NotSent => Some([])
    case Malformed => Some([])
    case GroupList(gs) => Some(gs)
    case NotIterable => None
  }

  // ---------------------------------------------------------------------
  // The run

  /** The response record of a stored job. */
  function InfoOf(job: Job, path: string, url: Option<string>): (info: FileInfo)
    ensures info.filename == job.file.originalname && info.storagePath == path && info.signedUrl == url
    ensures info.RequiredInfo? <==> job.kind.ForRequired?
  {
    match job.kind
    case ForRequired(rf) =>
      RequiredInfo(job.file.originalname, path, url, Str(rf.docType), Str(rf.labelText))
    case ForItem(docType, _, it) =>
      SupportInfo(job.file.originalname, path, url, docType, OrNull(it.labelText),
                  OrNull(it.station), OrNull(it.caption), Coalesce(it.lat), Coalesce(it.lon))
  }

  /** The latitude or longitude value inserted: a JSON number as it is, a
      truthy non-number through `Number(...)`, anything else `null`. */
  function DbCoordinate(v: Val): (r: DbNumber)
    ensures r == DbNull <==> !v.Num? && !Truthy(v)
    ensures v.Num? ==> r == DbValue(v.value)
    ensures r.DbCoerced? ==> r.from == v
  {
    if v.Num? then DbValue(v.value) else if Truthy(v) then DbCoerced(v) else DbNull
  }

  /** The `supporting_files` row inserted for a stored job. It agrees with
      the job's response record on the file name, the recorded path, the
      type and the label. */
  function RowOf(uploadId: string, job: Job, path: string): (row: SupportRow)
    ensures row.uploadId == uploadId && row.filename == job.file.originalname && row.storagePath == path
    ensures forall url :: row.docType == InfoOf(job, path, url).docType && row.labelText == InfoOf(job, path, url).labelText
  {
    match job.kind
    case ForRequired(rf) =>
      SupportRow(uploadId, Str(rf.docType), Str(rf.labelText), Str(rf.labelText), job.file.originalname, path,
                 Undefined, Undefined, DbNull, DbNull)
    case ForItem(docType, title, it) =>
      SupportRow(uploadId, docType, OrNull(title), OrNull(it.labelText), job.file.originalname, path,
                 OrNull(it.station), OrNull(it.caption), DbCoordinate(it.lat), DbCoordinate(it.lon))
  }

  /** The rows the table keeps of a sequence of inserts: a rejected insert
      leaves no row and is otherwise ignored. */
  function Accepted(rows: seq<SupportRow>, rejected: set<SupportRow>): (kept: seq<SupportRow>)
    ensures |kept| <= |rows|
    ensures forall r :: r in kept ==> r in rows && r !in rejected
    decreases |rows|
  {
    if rows == [] then []
    else Accepted(rows[..|rows| - 1], rejected)
         + (if rows[|rows| - 1] in rejected then [] else [rows[|rows| - 1]])
  }

  /** The destination paths of the jobs. */
  function Dests(jobs: seq<Job>): set<string>
    decreases |jobs|
  {
    if jobs == [] then {} else Dests(jobs[..|jobs| - 1]) + {jobs[|jobs| - 1].dest}
  }

  /** The path a stored job is recorded under. */
  function JobPath(env: Env, job: Job): string {
    RecordedPath(env, job.dest)
  }

  /** The response record of a stored job, with the signed URL of its
      recorded path. */
  function JobInfo(env: Env, job: Job): FileInfo {
    InfoOf(job, JobPath(env, job), SignedUrl(env.SignReplyFor(JobPath(env, job))))
  }

  /** The response records of stored jobs, in order. */
  function Infos(jobs: seq<Job>, env: Env): (infos: seq<FileInfo>)
    ensures |infos| == |jobs|
    decreases |jobs|
  {
    if jobs == [] then [] else Infos(jobs[..|jobs| - 1], env) + [JobInfo(env, jobs[|jobs| - 1])]
  }

  /** The `supporting_files` inserts issued for stored jobs, in order. */
  function Rows(uploadId: string, jobs: seq<Job>, env: Env): (rows: seq<SupportRow>)
    ensures |rows| == |jobs|
    decreases |jobs|
  {
    if jobs == [] then []
    else Rows(uploadId, jobs[..|jobs| - 1], env) + [RowOf(uploadId, jobs[|jobs| - 1], JobPath(env, jobs[|jobs| - 1]))]
  }

  /** How far a run of jobs gets: the number of jobs, taken in order, that
      are stored before the first storage error, and that error. Each job is
      written to the bucket as the jobs before it left it. */
  datatype Progress = Progress(stored: nat, fault: Option<Fault>)

  function RunProgress(bucket: set<string>, jobs: seq<Job>, env: Env): (p: Progress)
    ensures p.stored <= |jobs|
    ensures p.fault.None? <==> p.stored == |jobs|
    ensures p.fault.Some? ==>
      (p.fault.value.AlreadyExists? || p.fault.value.StorageRefused?) && p.fault.value.path == jobs[p.stored].dest
    decreases |jobs|
  {
    if jobs == [] then Progress(0, None)
    else
      var init, last := jobs[..|jobs| - 1], jobs[|jobs| - 1];
      var prev := RunProgress(bucket, init, env);
      if prev.fault.Some? then prev
      else match StoreObject(bucket + Dests(init), last.dest, env.StorageReplyFor(last.dest))
        case StoreFailed(f) => Progress(|init|, Some(f))
        case StoredAt(_) => Progress(|jobs|, None)
  }

  /** The stores after the given jobs have been stored, in order: each
      job's destination is in the bucket, and each job's row was inserted
      unless the database rejected it. */
  function AfterStoring(st: Stores, uploadId: string, done: seq<Job>, env: Env): (s: Stores)
    ensures s.uploads == st.uploads && s.tmpFiles == st.tmpFiles
    ensures st.bucket <= s.bucket && st.supportingFiles <= s.supportingFiles
  {
    st.(bucket := st.bucket + Dests(done),
        supportingFiles := st.supportingFiles + Accepted(Rows(uploadId, done, env), env.rejectedRows))
  }

  /** The set of temporary files of the uploaded files. */
  function TmpPaths(files: seq<UploadedFile>): (paths: set<string>)
    ensures forall k :: 0 <= k < |files| ==> files[k].path in paths
    ensures forall p :: p in paths ==> exists k :: 0 <= k < |files| && files[k].path == p
  {
    set k | 0 <= k < |files| :: files[k].path
  }

  /** The jobs of the metadata groups, or `None` when the metadata cannot
      be walked. */
  function SupportPlan(m: Metadata, files: seq<UploadedFile>, uploadId: string): Option<seq<Job>> {
    match SupportMeta(m)
    case None => None
    case Some(groups) => Some(SupportJobs(groups, files, uploadId))
  }

  /** The handler once the parent row is in: store the required files and
      then, if the metadata could be walked, the files it lists, as one run;
      on success remove the temporary files. A storage error stops the run
      where it is: the objects and rows of the files stored before it stay.
      Metadata that cannot be walked fails the request once the required
      files are stored. */
  function Proceed(s1: Stores, uploadId: string, required: seq<Job>, support: Option<seq<Job>>,
                   tmp: set<string>, env: Env): (out: (Stores, Response))
    ensures out.0.uploads == s1.uploads
    ensures out.1.Uploaded? ==> out.1.uploadId == uploadId && out.0.tmpFiles == s1.tmpFiles - tmp
    ensures out.1.UploadFailed? ==> out.0.tmpFiles == s1.tmpFiles
    ensures s1.bucket <= out.0.bucket && s1.supportingFiles <= out.0.supportingFiles
  {
    match support
    case None =>
      var p := RunProgress(s1.bucket, required, env);
      (AfterStoring(s1, uploadId, required[..p.stored], env),
       UploadFailed(if p.fault.Some? then p.fault.value else MetadataNotIterable))
    case Some(jobs) =>
      var all := required + jobs;
      var p := RunProgress(s1.bucket, all, env);
      if p.fault.Some? then (AfterStoring(s1, uploadId, all[..p.stored], env), UploadFailed(p.fault.value))
      else
        var s := AfterStoring(s1, uploadId, all, env);
        (s.(tmpFiles := s.tmpFiles - tmp), Uploaded(uploadId, Infos(all, env)))
  }

  /** The whole request: insert the parent row, then proceed with the plan.
      Any error yields `{ ok: false }`; a failed parent insert changes
      nothing. On success every temporary file is unlinked; one that cannot
      be stays, and the request still succeeds. */
  function Handle(st: Stores, req: RequestBody, files: seq<UploadedFile>, env: Env): (out: (Stores, Response))
    ensures env.insertUpload.InsertFailed? ==> out == (st, UploadFailed(ParentInsertFailed(env.insertUpload.message)))
    ensures env.insertUpload.Inserted? ==>
      out.0.uploads == st.uploads + [UploadRow(env.insertUpload.id, req.uploadType, req.contractorName,
                                               req.projectName, req.notes)]
    ensures out.1.Uploaded? ==> env.insertUpload == Inserted(out.1.uploadId)
    ensures out.1.Uploaded? ==> out.0.tmpFiles == st.tmpFiles - (TmpPaths(files) - env.unlinkFails)
    ensures out.1.UploadFailed? ==> out.0.tmpFiles == st.tmpFiles
    ensures st.bucket <= out.0.bucket && st.supportingFiles <= out.0.supportingFiles
  {
    match env.insertUpload
    case InsertFailed(m) => (st, UploadFailed(ParentInsertFailed(m)))
    case Inserted(id) =>
      var s1 := st.(uploads := st.uploads + [UploadRow(id, req.uploadType, req.contractorName, req.projectName, req.notes)]);
      Proceed(s1, id, RequiredJobs(RequiredFields, files, id), SupportPlan(req.metadata, files, id),
              TmpPaths(files) - env.unlinkFails, env)
  }
}

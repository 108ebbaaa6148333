/** The `POST /upload` handler as it runs: an object holding the
    state of the stores it talks to, whose methods perform the handler's
    loops step by step and are proved to end where `UploadModel.Handle`
    says. */
module SupaApi {
  import opened JsValues
  import opened UploadModel
  import opened UploadProperties

  /** The Supabase project as the handler sees it: the object paths in the
      storage bucket, the `uploads` and `supporting_files` tables, and the
      temporary files multer left on disk. */
  class Supabase {
    var bucket: set<string>
    var uploads: seq<UploadRow>
    var supportingFiles: seq<SupportRow>
    var tmpFiles: set<string>

    function State(): Stores
      reads this
    {
      Stores(bucket, uploads, supportingFiles, tmpFiles)
    }

    constructor (initial: Stores)
      ensures State() == initial
    {
      bucket := initial.bucket;
      uploads := initial.uploads;
      supportingFiles := initial.supportingFiles;
      tmpFiles := initial.tmpFiles;
    }

    /** `uploadFileToStorage` with `upsert: false`: a path already in the
        bucket is refused, so is one the service refuses; otherwise the
        object is written and the path the reply names (or the requested
        one) is returned. */
    method UploadFileToStorage(dest: string, reply: StorageReply) returns (r: Stored)
      modifies this`bucket
      ensures r == StoreObject(old(bucket), dest, reply)
      ensures bucket == if r.StoredAt? then old(bucket) + {dest} else old(bucket)
    {
      if dest in bucket {
        return StoreFailed(AlreadyExists(dest));
      }
      match reply
      case Refused(m) =>
        r := StoreFailed(StorageRefused(dest, m));
      case Written(reported) =>
        bucket := bucket + {dest};
        r := StoredAt(StoragePathOf(reported, dest));
    }

    /** An insert into `uploads`; the database assigned the row's id. */
    method InsertUpload(row: UploadRow)
      modifies this`uploads
      ensures uploads == old(uploads) + [row]
    {
      uploads := uploads + [row];
    }

    /** An insert into `supporting_files` whose error nobody reads: a
        rejected row is simply not there. */
    method InsertSupportingFile(row: SupportRow, rejected: set<SupportRow>)
      modifies this`supportingFiles
      ensures supportingFiles == old(supportingFiles) + (if row in rejected then [] else [row])
    {
      if row !in rejected {
        supportingFiles := supportingFiles + [row];
      }
    }

    /** `fs.unlinkSync` inside an empty `catch`: the file is gone
        afterwards unless it is one the system refuses to remove (`fails`),
        which stays; either way no error escapes. */
    method Unlink(path: string, fails: set<string>)
      modifies this`tmpFiles
      ensures tmpFiles == old(tmpFiles) - ({path} - fails)
    {
      if path !in fails {
        tmpFiles := tmpFiles - {path};
      }
    }

    /** One matched file: upload it, sign its recorded path, insert its
        row. A storage error stops here, before the signing and the
        insert. */
    method StoreJob(uploadId: string, job: Job, env: Env) returns (stored: Stored, url: Option<string>)
      modifies this`bucket, this`supportingFiles
      ensures stored == StoreObject(old(bucket), job.dest, env.StorageReplyFor(job.dest))
      ensures stored.StoreFailed? ==> bucket == old(bucket) && supportingFiles == old(supportingFiles)
      ensures stored.StoredAt? ==>
        var row := RowOf(uploadId, job, stored.path);
        && bucket == old(bucket) + {job.dest}
        && supportingFiles == old(supportingFiles) + (if row in env.rejectedRows then [] else [row])
        && url == SignedUrl(env.SignReplyFor(stored.path))
    {
      stored := UploadFileToStorage(job.dest, env.StorageReplyFor(job.dest));
      url := None;
      if stored.StoredAt? {
        url := SignedUrl(env.SignReplyFor(stored.path));
        InsertSupportingFile(RowOf(uploadId, job, stored.path), env.rejectedRows);
      }
    }

    /** Runs one job from the current stores and appends its record. */
    method RunJob(uploadId: string, job: Job, env: Env) returns (infos: seq<FileInfo>, fault: Option<Fault>)
      modifies this`bucket, this`supportingFiles
      ensures Ran(old(State()), uploadId, [job], State(), infos, fault, env)
    {
      ghost var s := State();
      OneJob(s, uploadId, job, env);
      var stored, url := StoreJob(uploadId, job, env);
      if stored.StoreFailed? {
        return [], Some(stored.fault);
      }
      infos, fault := [InfoOf(job, stored.path, url)], None;
    }

    /** The loop over the three required fields: for each, the first file
        sent under that field, if any, is stored under
        `uploads/<uploadId>/<field>/<basename>`. */
    method StoreRequired(uploadId: string, fields: seq<RequiredField>, files: seq<UploadedFile>, env: Env)
      returns (infos: seq<FileInfo>, fault: Option<Fault>)
      modifies this`bucket, this`supportingFiles
      ensures Ran(old(State()), uploadId, RequiredJobs(fields, files, uploadId), State(), infos, fault, env)
    {
      ghost var st := State();
      RanNothing(st, uploadId, env);
      infos := [];
      var i := 0;
      while i < |fields|
        invariant i <= |fields|
        invariant Ran(st, uploadId, RequiredJobs(fields[..i], files, uploadId), State(), infos, None, env)
      {
        var rf := fields[i];
        ghost var s := State();
        ghost var chunk: seq<Job> := [];
        RanNothing(s, uploadId, env);
        var more: seq<FileInfo>, err: Option<Fault> := [], None;
        var found := FirstWithFieldname(files, rf.field);
        if found.Some? {
          var mf := files[found.value];
          var job := Job(mf, DestPath(uploadId, rf.field, mf.originalname), ForRequired(rf));
          chunk := [job];
          more, err := RunJob(uploadId, job, env);
        }
        RequiredStep(st, uploadId, fields, i, files, s, infos, chunk, State(), more, err, env);
        if err.Some? {
          return infos + more, err;
        }
        infos := infos + more;
        i := i + 1;
      }
      assert fields[..i] == fields;
      fault := None;
    }

    /** The loop over one metadata group's items: each item whose
        `filename` is some file's client name stores the first such file
        under `uploads/<uploadId>/<type>/<basename>`; the others are
        skipped. */
    method StoreGroup(uploadId: string, grp: Group, files: seq<UploadedFile>, env: Env)
      returns (infos: seq<FileInfo>, fault: Option<Fault>)
      modifies this`bucket, this`supportingFiles
      ensures Ran(old(State()), uploadId, GroupJobs(grp, files, uploadId), State(), infos, fault, env)
    {
      ghost var st := State();
      RanNothing(st, uploadId, env);
      var docType, title, items := grp.docType, grp.title, grp.items;
      infos := [];
      var i := 0;
      while i < |items|
        invariant i <= |items|
        invariant Ran(st, uploadId, ItemJobs(docType, title, items[..i], files, uploadId), State(), infos, None, env)
      {
        var it := items[i];
        ghost var s := State();
        ghost var chunk: seq<Job> := [];
        RanNothing(s, uploadId, env);
        var more: seq<FileInfo>, err: Option<Fault> := [], None;
        var found := FirstWithOriginalname(files, it.filename);
        if found.Some? {
          var mf := files[found.value];
          var job := Job(mf, DestPath(uploadId, TemplateText(docType), mf.originalname), ForItem(docType, title, it));
          chunk := [job];
          more, err := RunJob(uploadId, job, env);
        }
        ItemStep(st, uploadId, grp, i, files, s, infos, chunk, State(), more, err, env);
        if err.Some? {
          return infos + more, err;
        }
        infos := infos + more;
        i := i + 1;
      }
      assert items[..i] == items;
      fault := None;
    }

    /** The loop over the metadata groups, in order. */
    method StoreSupport(uploadId: string, groups: seq<Group>, files: seq<UploadedFile>, env: Env)
      returns (infos: seq<FileInfo>, fault: Option<Fault>)
      modifies this`bucket, this`supportingFiles
      ensures Ran(old(State()), uploadId, SupportJobs(groups, files, uploadId), State(), infos, fault, env)
    {
      ghost var st := State();
      RanNothing(st, uploadId, env);
      infos := [];
      var g := 0;
      while g < |groups|
        invariant g <= |groups|
        invariant Ran(st, uploadId, SupportJobs(groups[..g], files, uploadId), State(), infos, None, env)
      {
        var supType := groups[g];
        ghost var s := State();
        var more, err := StoreGroup(uploadId, supType, files, env);
        GroupStep(st, uploadId, groups, g, files, s, infos, State(), more, err, env);
        if err.Some? {
          return infos + more, err;
        }
        infos := infos + more;
        g := g + 1;
      }
      assert groups[..g] == groups;
      fault := None;
    }

    /** The cleanup loop: every uploaded file's temporary file is
        unlinked; those that cannot be stay. */
    method RemoveTmpFiles(files: seq<UploadedFile>, fails: set<string>)
      modifies this`tmpFiles
      ensures tmpFiles == old(tmpFiles) - (TmpPaths(files) - fails)
    {
      var i := 0;
      while i < |files|
        invariant i <= |files|
        invariant tmpFiles == old(tmpFiles) - (TmpPaths(files[..i]) - fails)
      {
        TmpPathsSnoc(files[..i + 1], files[..i], files[i]);
        Unlink(files[i].path, fails);
        i := i + 1;
      }
      assert files[..i] == files;
    }

    /** `POST /upload`: insert the parent row, store the required files,
        walk the metadata and store the files it lists, then clean up and
        answer `{ ok: true, uploadId, files }`; any error answers
        `{ ok: false }` and leaves what was done so far. */
    method HandleUpload(req: RequestBody, files: seq<UploadedFile>, env: Env) returns (resp: Response)
      modifies this
      ensures (State(), resp) == Handle(old(State()), req, files, env)
    {
      if env.insertUpload.InsertFailed? {
        return UploadFailed(ParentInsertFailed(env.insertUpload.message));
      }
      var uploadId := env.insertUpload.id;
      InsertUpload(UploadRow(uploadId, req.uploadType, req.contractorName, req.projectName, req.notes));
      ghost var s1 := State();
      ghost var required := RequiredJobs(RequiredFields, files, uploadId);
      ghost var plan := SupportPlan(req.metadata, files, uploadId);
      var uploadedFilesInfo, fault := StoreRequired(uploadId, RequiredFields, files, env);
      if fault.Some? {
        StagedRequiredFails(s1, uploadId, required, plan, TmpPaths(files) - env.unlinkFails, State(), uploadedFilesInfo, fault, env);
        return UploadFailed(fault.value);
      }
      var supportMeta := SupportMeta(req.metadata);
      if supportMeta.None? {
        StagedMetadataFails(s1, uploadId, required, TmpPaths(files) - env.unlinkFails, State(), uploadedFilesInfo, env);
        return UploadFailed(MetadataNotIterable);
      }
      ghost var s2 := State();
      var more, err := StoreSupport(uploadId, supportMeta.value, files, env);
      StagedSupport(s1, uploadId, required, SupportJobs(supportMeta.value, files, uploadId),
                    TmpPaths(files) - env.unlinkFails,
                    s2, uploadedFilesInfo, State(), more, err, env);
      if err.Some? {
        return UploadFailed(err.value);
      }
      RemoveTmpFiles(files, env.unlinkFails);
      resp := Uploaded(uploadId, uploadedFilesInfo + more);
    }
  }

  /** One turn of a loop, whatever it runs: a chunk run from where the jobs
      before it left the stores extends the run to `next`; an error there is
      the error of the loop's whole plan `whole`, of which `next` is a
      prefix. */
  lemma Step(st: Stores, uploadId: string, done: seq<Job>, s: Stores, infos: seq<FileInfo>,
             chunk: seq<Job>, s': Stores, more: seq<FileInfo>, err: Option<Fault>,
             next: seq<Job>, rest: seq<Job>, whole: seq<Job>, env: Env)
    requires Ran(st, uploadId, done, s, infos, None, env)
    requires Ran(s, uploadId, chunk, s', more, err, env)
    requires next == done + chunk && whole == next + rest
    ensures err.None? ==> Ran(st, uploadId, next, s', infos + more, None, env)
    ensures err.Some? ==> Ran(st, uploadId, whole, s', infos + more, err, env)
  {
    RunChunk(st, uploadId, done, s, infos, chunk, s', more, err, env);
    if err.Some? {
      RunStopsWithin(st, uploadId, next, rest, whole, s', infos + more, err, env);
    }
  }

  /** One turn of the required-fields loop. */
  lemma RequiredStep(st: Stores, uploadId: string, fields: seq<RequiredField>, i: nat, files: seq<UploadedFile>, s: Stores,
                     infos: seq<FileInfo>, chunk: seq<Job>, s': Stores, more: seq<FileInfo>, err: Option<Fault>, env: Env)
    requires i < |fields|
    requires Ran(st, uploadId, RequiredJobs(fields[..i], files, uploadId), s, infos, None, env)
    requires chunk == RequiredJobFor(fields[i], files, uploadId)
    requires Ran(s, uploadId, chunk, s', more, err, env)
    ensures err.None? ==> Ran(st, uploadId, RequiredJobs(fields[..i + 1], files, uploadId), s', infos + more, None, env)
    ensures err.Some? ==> Ran(st, uploadId, RequiredJobs(fields, files, uploadId), s', infos + more, err, env)
  {
    var pre, post := fields[..i], fields[..i + 1];
    var done, next := RequiredJobs(pre, files, uploadId), RequiredJobs(post, files, uploadId);
    var rest, whole := RequiredJobs(fields[i + 1..], files, uploadId), RequiredJobs(fields, files, uploadId);
    RequiredJobsSnoc(post, pre, fields[i], files, uploadId);
    SplitAt(fields, i + 1);
    RequiredJobsAppend(post, fields[i + 1..], files, uploadId);
    Step(st, uploadId, done, s, infos, chunk, s', more, err, next, rest, whole, env);
  }

  /** One turn of a group's item loop. */
  lemma ItemStep(st: Stores, uploadId: string, grp: Group, i: nat, files: seq<UploadedFile>, s: Stores,
                 infos: seq<FileInfo>, chunk: seq<Job>, s': Stores, more: seq<FileInfo>, err: Option<Fault>, env: Env)
    requires i < |grp.items|
    requires Ran(st, uploadId, ItemJobs(grp.docType, grp.title, grp.items[..i], files, uploadId), s, infos, None, env)
    requires chunk == ItemJobFor(grp.docType, grp.title, grp.items[i], files, uploadId)
    requires Ran(s, uploadId, chunk, s', more, err, env)
    ensures err.None? ==>
      Ran(st, uploadId, ItemJobs(grp.docType, grp.title, grp.items[..i + 1], files, uploadId), s', infos + more, None, env)
    ensures err.Some? ==> Ran(st, uploadId, GroupJobs(grp, files, uploadId), s', infos + more, err, env)
  {
    var docType, title, items := grp.docType, grp.title, grp.items;
    var pre, post := items[..i], items[..i + 1];
    var done, next := ItemJobs(docType, title, pre, files, uploadId), ItemJobs(docType, title, post, files, uploadId);
    var rest, whole := ItemJobs(docType, title, items[i + 1..], files, uploadId), GroupJobs(grp, files, uploadId);
    ItemJobsSnoc(docType, title, post, pre, items[i], files, uploadId);
    SplitAt(items, i + 1);
    ItemJobsAppend(docType, title, post, items[i + 1..], files, uploadId);
    Step(st, uploadId, done, s, infos, chunk, s', more, err, next, rest, whole, env);
  }

  /** One turn of the group loop. */
  lemma GroupStep(st: Stores, uploadId: string, groups: seq<Group>, g: nat, files: seq<UploadedFile>, s: Stores,
                  infos: seq<FileInfo>, s': Stores, more: seq<FileInfo>, err: Option<Fault>, env: Env)
    requires g < |groups|
    requires Ran(st, uploadId, SupportJobs(groups[..g], files, uploadId), s, infos, None, env)
    requires Ran(s, uploadId, GroupJobs(groups[g], files, uploadId), s', more, err, env)
    ensures err.None? ==> Ran(st, uploadId, SupportJobs(groups[..g + 1], files, uploadId), s', infos + more, None, env)
    ensures err.Some? ==> Ran(st, uploadId, SupportJobs(groups, files, uploadId), s', infos + more, err, env)
  {
    var pre, post := groups[..g], groups[..g + 1];
    var done, next := SupportJobs(pre, files, uploadId), SupportJobs(post, files, uploadId);
    var rest, whole := SupportJobs(groups[g + 1..], files, uploadId), SupportJobs(groups, files, uploadId);
    SupportJobsSnoc(post, pre, groups[g], files, uploadId);
    SplitAt(groups, g + 1);
    SupportJobsAppend(post, groups[g + 1..], files, uploadId);
    Step(st, uploadId, done, s, infos, GroupJobs(groups[g], files, uploadId), s', more, err, next, rest, whole, env);
  }

  lemma TmpPathsSnoc(files: seq<UploadedFile>, init: seq<UploadedFile>, f: UploadedFile)
    requires files == init + [f]
    ensures TmpPaths(files) == TmpPaths(init) + {f.path}
  {
    forall p | p in TmpPaths(files) ensures p in TmpPaths(init) + {f.path} {
      var k :| 0 <= k < |files| && files[k].path == p;
      if k < |init| {
        assert files[k] == init[k];
      }
    }
    forall p | p in TmpPaths(init) + {f.path} ensures p in TmpPaths(files) {
      if p == f.path {
        assert files[|init|].path == p;
      } else {
        var k :| 0 <= k < |init| && init[k].path == p;
        assert files[k] == init[k];
      }
    }
  }
}

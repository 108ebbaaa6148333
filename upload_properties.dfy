/** What the `POST /upload` handler promises, proved about the
    specification in `UploadModel`. */
module UploadProperties {
  import opened JsValues
  import opened PosixPath
  import opened UploadModel

  // ---------------------------------------------------------------------
  // Storage paths

  /** A stored object keeps the client's file name as its own name. */
  lemma DestPathBasename(uploadId: string, segment: string, originalname: string)
    requires Basename(originalname) != ""
    ensures Basename(DestPath(uploadId, segment, originalname)) == Basename(originalname)
  {
    var dir := "uploads/" + uploadId + "/" + segment;
    var name := Basename(originalname);
    var d := DestPath(uploadId, segment, originalname);
    assert d == dir + "/" + name;
    assert d[|d| - 1] == name[|name| - 1];
    assert StripTrailingSlashes(d) == d;
    AfterLastSlashOfJoin(dir, name);
  }

  /** A path joined from a directory and a slash-free name determines both. */
  lemma JoinSplit(dir1: string, name1: string, dir2: string, name2: string)
    requires '/' !in name1 && '/' !in name2
    requires dir1 + "/" + name1 == dir2 + "/" + name2
    ensures dir1 == dir2 && name1 == name2
  {
    var p := dir1 + "/" + name1;
    AfterLastSlashOfJoin(dir1, name1);
    AfterLastSlashOfJoin(dir2, name2);
    assert |dir1| == |dir2|;
    assert dir1 == p[..|dir1|] == dir2;
  }

  /** Within one upload, two destinations are the same path exactly when
      they share the folder and the basename. */
  lemma DestPathInjective(uploadId: string, seg1: string, name1: string, seg2: string, name2: string)
    ensures DestPath(uploadId, seg1, name1) == DestPath(uploadId, seg2, name2)
            <==> seg1 == seg2 && Basename(name1) == Basename(name2)
  {
    var pre := "uploads/" + uploadId + "/";
    if DestPath(uploadId, seg1, name1) == DestPath(uploadId, seg2, name2) {
      JoinSplit(pre + seg1, Basename(name1), pre + seg2, Basename(name2));
      assert seg1 == (pre + seg1)[|pre|..];
      assert seg2 == (pre + seg2)[|pre|..];
    }
  }

  /** Two uploads whose ids hold no slash never share a destination, so
      files of the same name sent with different uploads do not collide. An
      id with a slash could: `a/b` with folder `c` and `a` with folder
      `b/c` give the same path. */
  lemma DestPathSeparatesUploads(id1: string, seg1: string, name1: string, id2: string, seg2: string, name2: string)
    requires '/' !in id1 && '/' !in id2 && id1 != id2
    ensures DestPath(id1, seg1, name1) != DestPath(id2, seg2, name2)
  {
    var p1, p2 := DestPath(id1, seg1, name1), DestPath(id2, seg2, name2);
    var r1, r2 := seg1 + "/" + Basename(name1), seg2 + "/" + Basename(name2);
    assert p1 == "uploads/" + id1 + "/" + r1 && p2 == "uploads/" + id2 + "/" + r2;
    var n := |"uploads/"|;
    if |id1| == |id2| {
      var k :| 0 <= k < |id1| && id1[k] != id2[k];
      assert p1[n + k] == id1[k] && p2[n + k] == id2[k];
    } else if |id1| < |id2| {
      assert p1[n + |id1|] == '/' && p2[n + |id1|] == id2[|id1|];
    } else {
      assert p2[n + |id2|] == '/' && p1[n + |id2|] == id1[|id2|];
    }
  }

  /** The separation is exact: with a slash allowed in the ids, two
      different uploads can share a destination. */
  lemma DestPathsCollideAcrossSlashedIds()
    ensures DestPath("a/b", "c", "x") == DestPath("a", "b/c", "x")
  {
    BasenameOfPlainName("x");
    assert DestPath("a/b", "c", "x") == "uploads/a/b/c/x";
    assert DestPath("a", "b/c", "x") == "uploads/a/b/c/x";
  }

  // ---------------------------------------------------------------------
  // Matching

  /** A required field yields at most one job: none when no file came in
      under that field name, otherwise one for the first such file, stored
      under `uploads/<id>/<field>/<basename>`. */
  lemma RequiredJobForSpec(rf: RequiredField, files: seq<UploadedFile>, uploadId: string)
    ensures var jobs := RequiredJobFor(rf, files, uploadId);
      && |jobs| <= 1
      && (jobs == [] <==> forall k :: 0 <= k < |files| ==> files[k].fieldname != rf.field)
      && (jobs != [] ==>
            exists k :: 0 <= k < |files| && FirstWithFieldname(files, rf.field) == Some(k)
              && jobs[0] == Job(files[k], "uploads/" + uploadId + "/" + rf.field + "/" + Basename(files[k].originalname),
                                ForRequired(rf)))
  {
    FirstWithFieldnameSpec(files, rf.field);
  }

  /** A metadata item yields at most one job: none when no file's client
      name equals its `filename`, otherwise one for the first such file,
      whatever form field that file came in, stored under
      `uploads/<id>/<group type>/<basename>`. */
  lemma ItemJobForSpec(docType: Val, title: Val, it: Item, files: seq<UploadedFile>, uploadId: string)
    ensures var jobs := ItemJobFor(docType, title, it, files, uploadId);
      && |jobs| <= 1
      && (jobs == [] <==> forall k :: 0 <= k < |files| ==> it.filename != Str(files[k].originalname))
      && (jobs != [] ==>
            exists k :: 0 <= k < |files| && FirstWithOriginalname(files, it.filename) == Some(k)
              && jobs[0] == Job(files[k],
                                "uploads/" + uploadId + "/" + TemplateText(docType) + "/" + Basename(files[k].originalname),
                                ForItem(docType, title, it)))
  {
    FirstWithOriginalnameSpec(files, it.filename);
  }

  /** Every required job belongs to one of the fields, comes from the first
      file sent under that field, and is stored in that field's folder. */
  lemma {:induction false} RequiredJobsShape(fields: seq<RequiredField>, files: seq<UploadedFile>, uploadId: string)
    ensures |RequiredJobs(fields, files, uploadId)| <= |fields|
    ensures forall j :: j in RequiredJobs(fields, files, uploadId) ==>
      && j.kind.ForRequired? && j.kind.field in fields
      && FirstWithFieldname(files, j.kind.field.field).Some?
      && j.file == files[FirstWithFieldname(files, j.kind.field.field).value]
      && j.dest == DestPath(uploadId, j.kind.field.field, j.file.originalname)
    decreases |fields|
  {
    if fields != [] {
      RequiredJobsShape(fields[..|fields| - 1], files, uploadId);
    }
  }

  /** Required fields with distinct names never collide in the bucket. */
  lemma {:induction false} RequiredDestsDistinct(fields: seq<RequiredField>, files: seq<UploadedFile>, uploadId: string)
    requires forall i, j :: 0 <= i < j < |fields| ==> fields[i].field != fields[j].field
    ensures var jobs := RequiredJobs(fields, files, uploadId);
      forall k, l :: 0 <= k < l < |jobs| ==> jobs[k].dest != jobs[l].dest
    decreases |fields|
  {
    if fields != [] {
      var init, last := fields[..|fields| - 1], fields[|fields| - 1];
      RequiredDestsDistinct(init, files, uploadId);
      RequiredJobsShape(init, files, uploadId);
      var prev := RequiredJobs(init, files, uploadId);
      var jobs := RequiredJobs(fields, files, uploadId);
      if RequiredJobFor(last, files, uploadId) != [] {
        var n := jobs[|jobs| - 1];
        forall k | 0 <= k < |prev| ensures prev[k].dest != n.dest {
          var j := prev[k];
          assert j in prev;
          assert j.kind.field in init;
          DestPathInjective(uploadId, j.kind.field.field, j.file.originalname, last.field, n.file.originalname);
        }
      }
    }
  }

  /** No two required-field jobs belong to the same field. */
  ghost predicate FieldsOnce(jobs: seq<Job>) {
    forall k, l :: 0 <= k < l < |jobs| && jobs[k].kind.ForRequired? && jobs[l].kind.ForRequired? ==>
      jobs[k].kind.field != jobs[l].kind.field
  }

  /** Fields with distinct names store at most one file each: no two jobs
      belong to the same field. */
  lemma {:induction false} RequiredJobsOnePerField(fields: seq<RequiredField>, files: seq<UploadedFile>, uploadId: string)
    requires forall i, j :: 0 <= i < j < |fields| ==> fields[i].field != fields[j].field
    ensures FieldsOnce(RequiredJobs(fields, files, uploadId))
    decreases |fields|
  {
    if fields != [] {
      var init, last := fields[..|fields| - 1], fields[|fields| - 1];
      RequiredJobsOnePerField(init, files, uploadId);
      var prev := RequiredJobs(init, files, uploadId);
      var mine := RequiredJobFor(last, files, uploadId);
      var jobs := RequiredJobs(fields, files, uploadId);
      assert jobs == prev + mine;
      assert last !in init by {
        forall i | 0 <= i < |init| ensures init[i] != last {
          assert init[i] == fields[i];
        }
      }
      forall k, l | 0 <= k < l < |jobs| ensures jobs[k].kind.field != jobs[l].kind.field {
        if l < |prev| {
          assert jobs[k] == prev[k] && jobs[l] == prev[l];
        } else {
          assert k < |prev| && jobs[k] == prev[k] && jobs[l] == mine[l - |prev|];
          assert prev[k] in prev && mine[l - |prev|] in mine;
          assert prev[k].kind.field in init && mine[l - |prev|].kind.field == last;
        }
      }
    }
  }

  /** The three fixed fields store at most one file each, never two to the
      same path. */
  lemma RequiredFieldsDistinct(files: seq<UploadedFile>, uploadId: string)
    ensures var jobs := RequiredJobs(RequiredFields, files, uploadId);
      && |jobs| <= 3
      && (forall k, l :: 0 <= k < l < |jobs| ==> jobs[k].dest != jobs[l].dest)
      && FieldsOnce(jobs)
  {
    RequiredJobsShape(RequiredFields, files, uploadId);
    RequiredDestsDistinct(RequiredFields, files, uploadId);
    RequiredJobsOnePerField(RequiredFields, files, uploadId);
  }

  // ---------------------------------------------------------------------
  // Order: the plan follows field order, then group order, then item order

  lemma MiddleIndex<T>(a: seq<T>, b: seq<T>, c: seq<T>, x: nat)
    requires x < |b|
    ensures |a + b + c| == |a| + |b| + |c| && (a + b + c)[|a| + x] == b[x]
  {
  }

  lemma LeftIndex<T>(a: seq<T>, b: seq<T>, c: seq<T>, x: nat)
    requires x < |a|
    ensures (a + b + c)[x] == a[x]
  {
  }

  lemma SplitAt<T>(s: seq<T>, k: nat)
    requires k <= |s|
    ensures s[..k] + s[k..] == s
  {
  }

  lemma PrefixOfAppend<T>(a: seq<T>, b: seq<T>, k: nat)
    requires k <= |a|
    ensures (a + b)[..k] == a[..k]
  {
  }

  lemma ConcatRegroup<T>(x: seq<T>, y: seq<T>, z: seq<T>, w: seq<T>)
    requires w == y + z
    ensures x + w == (x + y) + z
  {
  }

  /** One more field, item or group adds its own jobs at the end. */
  lemma RequiredJobsSnoc(fields: seq<RequiredField>, init: seq<RequiredField>, rf: RequiredField,
                         files: seq<UploadedFile>, uploadId: string)
    requires fields != [] && fields[..|fields| - 1] == init && fields[|fields| - 1] == rf
    ensures RequiredJobs(fields, files, uploadId)
            == RequiredJobs(init, files, uploadId) + RequiredJobFor(rf, files, uploadId)
  {
  }

  lemma ItemJobsSnoc(docType: Val, title: Val, items: seq<Item>, init: seq<Item>, it: Item,
                     files: seq<UploadedFile>, uploadId: string)
    requires items != [] && items[..|items| - 1] == init && items[|items| - 1] == it
    ensures ItemJobs(docType, title, items, files, uploadId)
            == ItemJobs(docType, title, init, files, uploadId) + ItemJobFor(docType, title, it, files, uploadId)
  {
  }

  lemma SupportJobsSnoc(groups: seq<Group>, init: seq<Group>, g: Group, files: seq<UploadedFile>, uploadId: string)
    requires groups != [] && groups[..|groups| - 1] == init && groups[|groups| - 1] == g
    ensures SupportJobs(groups, files, uploadId) == SupportJobs(init, files, uploadId) + GroupJobs(g, files, uploadId)
  {
  }

  lemma {:induction false} RequiredJobsAppend(a: seq<RequiredField>, b: seq<RequiredField>, files: seq<UploadedFile>, uploadId: string)
    ensures RequiredJobs(a + b, files, uploadId) == RequiredJobs(a, files, uploadId) + RequiredJobs(b, files, uploadId)
    decreases |b|
  {
    if b == [] {
      assert a + b == a;
    } else {
      var b0, last := b[..|b| - 1], b[|b| - 1];
      var ab, ab0 := a + b, a + b0;
      assert ab != [] && ab[..|ab| - 1] == ab0 && ab[|ab| - 1] == last;
      RequiredJobsAppend(a, b0, files, uploadId);
      RequiredJobsSnoc(ab, ab0, last, files, uploadId);
      RequiredJobsSnoc(b, b0, last, files, uploadId);
      ConcatRegroup(RequiredJobs(a, files, uploadId), RequiredJobs(b0, files, uploadId),
                    RequiredJobFor(last, files, uploadId), RequiredJobs(b, files, uploadId));
    }
  }

  lemma {:induction false} ItemJobsAppend(docType: Val, title: Val, a: seq<Item>, b: seq<Item>, files: seq<UploadedFile>, uploadId: string)
    ensures ItemJobs(docType, title, a + b, files, uploadId)
            == ItemJobs(docType, title, a, files, uploadId) + ItemJobs(docType, title, b, files, uploadId)
    decreases |b|
  {
    if b == [] {
      assert a + b == a;
    } else {
      var b0, last := b[..|b| - 1], b[|b| - 1];
      var ab, ab0 := a + b, a + b0;
      assert ab != [] && ab[..|ab| - 1] == ab0 && ab[|ab| - 1] == last;
      ItemJobsAppend(docType, title, a, b0, files, uploadId);
      ItemJobsSnoc(docType, title, ab, ab0, last, files, uploadId);
      ItemJobsSnoc(docType, title, b, b0, last, files, uploadId);
      ConcatRegroup(ItemJobs(docType, title, a, files, uploadId), ItemJobs(docType, title, b0, files, uploadId),
                    ItemJobFor(docType, title, last, files, uploadId), ItemJobs(docType, title, b, files, uploadId));
    }
  }

  lemma {:induction false} SupportJobsAppend(a: seq<Group>, b: seq<Group>, files: seq<UploadedFile>, uploadId: string)
    ensures SupportJobs(a + b, files, uploadId) == SupportJobs(a, files, uploadId) + SupportJobs(b, files, uploadId)
    decreases |b|
  {
    if b == [] {
      assert a + b == a;
    } else {
      var b0, last := b[..|b| - 1], b[|b| - 1];
      var ab, ab0 := a + b, a + b0;
      assert ab != [] && ab[..|ab| - 1] == ab0 && ab[|ab| - 1] == last;
      SupportJobsAppend(a, b0, files, uploadId);
      SupportJobsSnoc(ab, ab0, last, files, uploadId);
      SupportJobsSnoc(b, b0, last, files, uploadId);
      ConcatRegroup(SupportJobs(a, files, uploadId), SupportJobs(b0, files, uploadId),
                    GroupJobs(last, files, uploadId), SupportJobs(b, files, uploadId));
    }
  }

  /** The plan of the metadata, split around one group. */
  lemma SupportJobsAround(groups: seq<Group>, g: nat, files: seq<UploadedFile>, uploadId: string)
    requires g < |groups|
    ensures SupportJobs(groups, files, uploadId)
            == SupportJobs(groups[..g], files, uploadId) + GroupJobs(groups[g], files, uploadId)
               + SupportJobs(groups[g + 1..], files, uploadId)
  {
    var left := groups[..g + 1];
    assert left + groups[g + 1..] == groups;
    SupportJobsAppend(left, groups[g + 1..], files, uploadId);
    SupportJobsSnoc(left, groups[..g], groups[g], files, uploadId);
  }

  /** The jobs of a group's items, split around one item. */
  lemma ItemJobsAround(docType: Val, title: Val, items: seq<Item>, i: nat, files: seq<UploadedFile>, uploadId: string)
    requires i < |items|
    ensures ItemJobs(docType, title, items, files, uploadId)
            == ItemJobs(docType, title, items[..i], files, uploadId) + ItemJobFor(docType, title, items[i], files, uploadId)
               + ItemJobs(docType, title, items[i + 1..], files, uploadId)
  {
    var left := items[..i + 1];
    assert left + items[i + 1..] == items;
    ItemJobsAppend(docType, title, left, items[i + 1..], files, uploadId);
    ItemJobsSnoc(docType, title, left, items[..i], items[i], files, uploadId);
  }

  /** An item whose `filename` matches no uploaded file yields no job. */
  lemma UnmatchedItemNoJobs(docType: Val, title: Val, pre: seq<Item>, it: Item, post: seq<Item>,
                            files: seq<UploadedFile>, uploadId: string)
    requires forall k :: 0 <= k < |files| ==> it.filename != Str(files[k].originalname)
    ensures ItemJobs(docType, title, pre + [it] + post, files, uploadId)
            == ItemJobs(docType, title, pre + post, files, uploadId)
  {
    FirstWithOriginalnameSpec(files, it.filename);
    assert ItemJobFor(docType, title, it, files, uploadId) == [];
    ItemJobsAppend(docType, title, pre + [it], post, files, uploadId);
    ItemJobsAppend(docType, title, pre, post, files, uploadId);
    ItemJobsSnoc(docType, title, pre + [it], pre, it, files, uploadId);
  }

  /** An item whose `filename` matches no uploaded file can be added to or
      dropped from any group without changing the plan. */
  lemma UnmatchedItemInert(groups: seq<Group>, g: nat, pre: seq<Item>, it: Item, post: seq<Item>,
                           files: seq<UploadedFile>, uploadId: string)
    requires g < |groups| && groups[g].items == pre + post
    requires forall k :: 0 <= k < |files| ==> it.filename != Str(files[k].originalname)
    ensures SupportJobs(groups[g := groups[g].(items := pre + [it] + post)], files, uploadId)
            == SupportJobs(groups, files, uploadId)
  {
    var grp := groups[g];
    var more := groups[g := grp.(items := pre + [it] + post)];
    UnmatchedItemNoJobs(grp.docType, grp.title, pre, it, post, files, uploadId);
    assert GroupJobs(more[g], files, uploadId) == GroupJobs(grp, files, uploadId);
    SupportJobsAround(groups, g, files, uploadId);
    SupportJobsAround(more, g, files, uploadId);
    assert more[..g] == groups[..g] && more[g + 1..] == groups[g + 1..];
  }

  // ---------------------------------------------------------------------
  // Records and rows

  /** The response record and the row of a metadata item: `label`,
      `station`, `caption` and the group's `title` are `null` exactly when
      falsy; in the response `lat`/`lon` are `null` exactly when the item's
      value is `null` or `undefined`; in the row a number is kept, another
      truthy value is converted and anything else is `null`. */
  lemma ItemRecordNulls(uploadId: string, job: Job, path: string, url: Option<string>)
    requires job.kind.ForItem?
    ensures var it, info, row := job.kind.item, InfoOf(job, path, url), RowOf(uploadId, job, path);
      && info.SupportInfo? && info.docType == job.kind.docType && info.filename == job.file.originalname
      && (info.labelText == Null <==> !Truthy(it.labelText))
      && (info.station == Null <==> !Truthy(it.station))
      && (info.caption == Null <==> !Truthy(it.caption))
      && (info.lat == Null <==> it.lat == Null || it.lat == Undefined)
      && (info.lon == Null <==> it.lon == Null || it.lon == Undefined)
      && (info.lat != Null ==> info.lat == it.lat) && (info.lon != Null ==> info.lon == it.lon)
      && (row.docTitle == Null <==> !Truthy(job.kind.title))
      && (row.latitude == DbNull <==> !it.lat.Num? && !Truthy(it.lat))
      && (row.longitude == DbNull <==> !it.lon.Num? && !Truthy(it.lon))
      && row.labelText == info.labelText && row.station == info.station && row.caption == info.caption
  {
  }

  /** A required field's record and row carry type `required` and the
      field's fixed label as both title and label. */
  lemma RequiredRecordLabels(uploadId: string, job: Job, path: string, url: Option<string>)
    requires job.kind.ForRequired? && job.kind.field in RequiredFields
    ensures var rf, info, row := job.kind.field, InfoOf(job, path, url), RowOf(uploadId, job, path);
      && info.RequiredInfo? && info.docType == Str("required") && info.labelText == Str(rf.labelText)
      && row.docType == Str("required") && row.docTitle == Str(rf.labelText) && row.labelText == Str(rf.labelText)
      && row.storagePath == path && info.storagePath == path && row.uploadId == uploadId
  {
  }

  // ---------------------------------------------------------------------
  // Running jobs

  lemma {:induction false} DestsMember(jobs: seq<Job>, p: string)
    ensures p in Dests(jobs) <==> exists k :: 0 <= k < |jobs| && jobs[k].dest == p
    decreases |jobs|
  {
    if jobs != [] {
      var init := jobs[..|jobs| - 1];
      DestsMember(init, p);
      if p in Dests(init) {
        var k :| 0 <= k < |init| && init[k].dest == p;
        assert jobs[k].dest == p;
      }
    }
  }

  lemma UnionRegroup<T>(x: set<T>, y: set<T>, z: set<T>, w: set<T>)
    requires w == y + z
    ensures x + w == (x + y) + z
  {
  }

  lemma {:induction false} DestsAppend(a: seq<Job>, b: seq<Job>)
    ensures Dests(a + b) == Dests(a) + Dests(b)
    decreases |b|
  {
    if b == [] {
      assert a + b == a;
    } else {
      assert (a + b)[..|a + b| - 1] == a + b[..|b| - 1];
      DestsAppend(a, b[..|b| - 1]);
    }
  }

  lemma {:induction false} InfosAppend(a: seq<Job>, b: seq<Job>, env: Env)
    ensures Infos(a + b, env) == Infos(a, env) + Infos(b, env)
    decreases |b|
  {
    if b == [] {
      assert a + b == a;
    } else {
      assert (a + b)[..|a + b| - 1] == a + b[..|b| - 1];
      InfosAppend(a, b[..|b| - 1], env);
    }
  }

  lemma {:induction false} RowsAppend(uploadId: string, a: seq<Job>, b: seq<Job>, env: Env)
    ensures Rows(uploadId, a + b, env) == Rows(uploadId, a, env) + Rows(uploadId, b, env)
    decreases |b|
  {
    if b == [] {
      assert a + b == a;
    } else {
      assert (a + b)[..|a + b| - 1] == a + b[..|b| - 1];
      RowsAppend(uploadId, a, b[..|b| - 1], env);
    }
  }

  lemma {:induction false} AcceptedAppend(a: seq<SupportRow>, b: seq<SupportRow>, rejected: set<SupportRow>)
    ensures Accepted(a + b, rejected) == Accepted(a, rejected) + Accepted(b, rejected)
    decreases |b|
  {
    if b == [] {
      assert a + b == a;
    } else {
      assert (a + b)[..|a + b| - 1] == a + b[..|b| - 1];
      AcceptedAppend(a, b[..|b| - 1], rejected);
    }
  }

  /** The `k`-th record and insert belong to the `k`-th job. */
  lemma {:induction false} RecordsIndex(uploadId: string, jobs: seq<Job>, env: Env)
    ensures forall k :: 0 <= k < |jobs| ==> Infos(jobs, env)[k] == JobInfo(env, jobs[k])
    ensures forall k :: 0 <= k < |jobs| ==>
      Rows(uploadId, jobs, env)[k] == RowOf(uploadId, jobs[k], JobPath(env, jobs[k]))
    decreases |jobs|
  {
    if jobs != [] {
      var init := jobs[..|jobs| - 1];
      RecordsIndex(uploadId, init, env);
      assert forall k :: 0 <= k < |init| ==> jobs[k] == init[k];
    }
  }

  /** A run over two job lists is the run over the first followed, unless
      it stopped, by the run over the second against the bucket the first
      left. */
  lemma {:induction false} RunProgressAppend(bucket: set<string>, a: seq<Job>, b: seq<Job>, env: Env)
    ensures var pa := RunProgress(bucket, a, env);
      RunProgress(bucket, a + b, env)
      == if pa.fault.Some? then pa
         else var pb := RunProgress(bucket + Dests(a), b, env); Progress(|a| + pb.stored, pb.fault)
    decreases |b|
  {
    if b == [] {
      assert a + b == a;
    } else {
      var b0, last := b[..|b| - 1], b[|b| - 1];
      assert (a + b)[..|a + b| - 1] == a + b0;
      RunProgressAppend(bucket, a, b0, env);
      if RunProgress(bucket, a, env).fault.None? && RunProgress(bucket + Dests(a), b0, env).fault.None? {
        DestsAppend(a, b0);
        UnionRegroup(bucket, Dests(a), Dests(b0), Dests(a + b0));
      }
    }
  }

  /** Storing two job lists one after the other is storing their
      concatenation. */
  lemma AfterStoringAppend(st: Stores, uploadId: string, a: seq<Job>, b: seq<Job>, env: Env)
    ensures AfterStoring(st, uploadId, a + b, env)
            == AfterStoring(AfterStoring(st, uploadId, a, env), uploadId, b, env)
  {
    DestsAppend(a, b);
    RowsAppend(uploadId, a, b, env);
    AcceptedAppend(Rows(uploadId, a, env), Rows(uploadId, b, env), env.rejectedRows);
    UnionRegroup(st.bucket, Dests(a), Dests(b), Dests(a + b));
    ConcatRegroup(st.supportingFiles, Accepted(Rows(uploadId, a, env), env.rejectedRows),
                  Accepted(Rows(uploadId, b, env), env.rejectedRows),
                  Accepted(Rows(uploadId, a + b, env), env.rejectedRows));
  }

  /** Running `jobs` from the stores `st` ends with the stores `s`, the
      response records `infos` and the storage error `fault`: the jobs
      before the first error are stored, and only they. */
  ghost predicate Ran(st: Stores, uploadId: string, jobs: seq<Job>, s: Stores, infos: seq<FileInfo>,
                      fault: Option<Fault>, env: Env) {
    var p := RunProgress(st.bucket, jobs, env);
    && fault == p.fault
    && s == AfterStoring(st, uploadId, jobs[..p.stored], env)
    && infos == Infos(jobs[..p.stored], env)
  }

  /** Running no job changes nothing. */
  lemma RanNothing(st: Stores, uploadId: string, env: Env)
    ensures Ran(st, uploadId, [], st, [], None, env)
  {
    assert st.bucket + {} == st.bucket && st.supportingFiles + [] == st.supportingFiles;
  }

  /** A run of one job: the upload is tried against the bucket as it is;
      if it succeeds, the job's object and (unless rejected) its row are
      added and its record names the recorded path and that path's signed
      URL, otherwise the run stops with the upload's error and nothing
      changes. */
  lemma OneJob(s: Stores, uploadId: string, job: Job, env: Env)
    ensures var stored := StoreObject(s.bucket, job.dest, env.StorageReplyFor(job.dest));
      && (stored.StoreFailed? ==> Ran(s, uploadId, [job], s, [], Some(stored.fault), env))
      && (stored.StoredAt? ==>
            var path := stored.path;
            var row := RowOf(uploadId, job, path);
            && path == JobPath(env, job)
            && Ran(s, uploadId, [job],
                   s.(bucket := s.bucket + {job.dest},
                      supportingFiles := s.supportingFiles + (if row in env.rejectedRows then [] else [row])),
                   [InfoOf(job, path, SignedUrl(env.SignReplyFor(path)))], None, env))
  {
    assert [job][..0] == [] && [job][..1] == [job];
    assert s.bucket + Dests([]) == s.bucket;
    assert s.supportingFiles + [] == s.supportingFiles;
    assert Rows(uploadId, [job], env) == [RowOf(uploadId, job, JobPath(env, job))];
  }

  /** Runs compose: a run of `chunk` from where a complete run of `done`
      left the stores is the run of `done + chunk` from the start. */
  lemma RunChunk(st: Stores, uploadId: string, done: seq<Job>, s: Stores, infos: seq<FileInfo>,
                 chunk: seq<Job>, s': Stores, more: seq<FileInfo>, fault: Option<Fault>, env: Env)
    requires Ran(st, uploadId, done, s, infos, None, env)
    requires Ran(s, uploadId, chunk, s', more, fault, env)
    ensures Ran(st, uploadId, done + chunk, s', infos + more, fault, env)
  {
    assert done[..|done|] == done;
    assert s == AfterStoring(st, uploadId, done, env);
    var q := RunProgress(s.bucket, chunk, env);
    var k := q.stored;
    RunProgressAppend(st.bucket, done, chunk, env);
    assert RunProgress(st.bucket, done + chunk, env) == Progress(|done| + k, q.fault);
    assert (done + chunk)[..|done| + k] == done + chunk[..k];
    AfterStoringAppend(st, uploadId, done, chunk[..k], env);
    InfosAppend(done, chunk[..k], env);
  }

  /** A run that stops within a prefix of the jobs stops there in the whole
      run too, having stored the same jobs. */
  lemma RunStopsWithin(st: Stores, uploadId: string, pre: seq<Job>, rest: seq<Job>, whole: seq<Job>,
                       s: Stores, infos: seq<FileInfo>, fault: Option<Fault>, env: Env)
    requires whole == pre + rest && fault.Some?
    requires Ran(st, uploadId, pre, s, infos, fault, env)
    ensures Ran(st, uploadId, whole, s, infos, fault, env)
  {
    RunProgressAppend(st.bucket, pre, rest, env);
    PrefixOfAppend(pre, rest, RunProgress(st.bucket, pre, env).stored);
  }

  /** The handler run in stages, as the handler runs it, agrees with
      `Proceed`: a storage error among the required files ends it there,
      whatever the metadata... */
  lemma StagedRequiredFails(s1: Stores, uploadId: string, required: seq<Job>, support: Option<seq<Job>>,
                            tmp: set<string>, s: Stores, infos: seq<FileInfo>, fault: Option<Fault>, env: Env)
    requires fault.Some? && Ran(s1, uploadId, required, s, infos, fault, env)
    ensures Proceed(s1, uploadId, required, support, tmp, env) == (s, UploadFailed(fault.value))
  {
    if support.Some? {
      RunRequiredStops(s1, uploadId, required, support.value, s, infos, fault, env);
    }
  }

  lemma RunRequiredStops(s1: Stores, uploadId: string, required: seq<Job>, jobs: seq<Job>,
                         s: Stores, infos: seq<FileInfo>, fault: Option<Fault>, env: Env)
    requires fault.Some? && Ran(s1, uploadId, required, s, infos, fault, env)
    ensures var p := RunProgress(s1.bucket, required + jobs, env);
      p.fault == fault && s == AfterStoring(s1, uploadId, (required + jobs)[..p.stored], env)
  {
    RunStopsWithin(s1, uploadId, required, jobs, required + jobs, s, infos, fault, env);
  }

  /** ... metadata that cannot be walked ends it once the required files
      are stored... */
  lemma StagedMetadataFails(s1: Stores, uploadId: string, required: seq<Job>, tmp: set<string>,
                            s: Stores, infos: seq<FileInfo>, env: Env)
    requires Ran(s1, uploadId, required, s, infos, None, env)
    ensures Proceed(s1, uploadId, required, None, tmp, env) == (s, UploadFailed(MetadataNotIterable))
  {
  }

  /** ... and otherwise the metadata files are run from where the required
      files left the stores; on success the temporary files are removed and
      the records of both stages are returned. */
  lemma StagedSupport(s1: Stores, uploadId: string, required: seq<Job>, jobs: seq<Job>, tmp: set<string>,
                      s2: Stores, infos: seq<FileInfo>, s3: Stores, more: seq<FileInfo>, fault: Option<Fault>, env: Env)
    requires Ran(s1, uploadId, required, s2, infos, None, env)
    requires Ran(s2, uploadId, jobs, s3, more, fault, env)
    ensures fault.Some? ==> Proceed(s1, uploadId, required, Some(jobs), tmp, env) == (s3, UploadFailed(fault.value))
    ensures fault.None? ==>
      Proceed(s1, uploadId, required, Some(jobs), tmp, env) == (s3.(tmpFiles := s3.tmpFiles - tmp), Uploaded(uploadId, infos + more))
  {
    RunChunk(s1, uploadId, required, s2, infos, jobs, s3, more, fault, env);
    var all := required + jobs;
    assert all[..|all|] == all;
  }

  /** Every job can be written: its destination is not in the bucket yet,
      no other job has the same destination, and the service accepts it. */
  ghost predicate StoresCleanly(bucket: set<string>, jobs: seq<Job>, env: Env) {
    && (forall k :: 0 <= k < |jobs| ==> jobs[k].dest !in bucket && env.StorageReplyFor(jobs[k].dest).Written?)
    && (forall k, l :: 0 <= k < l < |jobs| ==> jobs[k].dest != jobs[l].dest)
  }

  /** A run completes exactly when every job can be written; signed-URL
      errors and rejected row inserts never stop it. */
  lemma {:induction false} RunProgressOkIff(bucket: set<string>, jobs: seq<Job>, env: Env)
    ensures RunProgress(bucket, jobs, env).fault.None? <==> StoresCleanly(bucket, jobs, env)
    decreases |jobs|
  {
    if jobs != [] {
      var init, last := jobs[..|jobs| - 1], jobs[|jobs| - 1];
      RunProgressOkIff(bucket, init, env);
      DestsMember(init, last.dest);
      if StoresCleanly(bucket, jobs, env) {
        assert StoresCleanly(bucket, init, env);
        forall k | 0 <= k < |init| ensures init[k].dest != last.dest {
          assert jobs[k] == init[k];
        }
      }
      if RunProgress(bucket, jobs, env).fault.None? {
        forall k, l | 0 <= k < l < |jobs| ensures jobs[k].dest != jobs[l].dest {
          if l < |init| {
            assert jobs[k] == init[k] && jobs[l] == init[l];
          } else {
            assert jobs[k] == init[k];
          }
        }
        forall k | 0 <= k < |jobs| ensures jobs[k].dest !in bucket && env.StorageReplyFor(jobs[k].dest).Written? {
          if k < |init| { assert jobs[k] == init[k]; }
        }
      }
    }
  }

  // ---------------------------------------------------------------------
  // The whole request

  /** The request succeeds exactly when the parent row is inserted, the
      metadata can be iterated, and every planned file can be written: no
      planned destination is already in the bucket or planned twice, and
      the storage service accepts each one. */
  lemma HandleOkIff(st: Stores, req: RequestBody, files: seq<UploadedFile>, env: Env)
    ensures Handle(st, req, files, env).1.Uploaded? <==>
      && env.insertUpload.Inserted?
      && SupportMeta(req.metadata).Some?
      && StoresCleanly(st.bucket, Plan(SupportMeta(req.metadata).value, files, env.insertUpload.id), env)
  {
    if env.insertUpload.Inserted? && SupportMeta(req.metadata).Some? {
      RunProgressOkIff(st.bucket, Plan(SupportMeta(req.metadata).value, files, env.insertUpload.id), env);
    }
  }

  /** On success the response lists one record per planned file, in plan
      order (required fields first, then groups and items in order); the
      `supporting_files` inserts are as many, in the same order and with the
      same storage paths; the bucket gained exactly the planned paths; one
      parent row was added; and the temporary files are gone. */
  lemma HandleSuccess(st: Stores, req: RequestBody, files: seq<UploadedFile>, env: Env)
    requires Handle(st, req, files, env).1.Uploaded?
    ensures env.insertUpload.Inserted? && SupportMeta(req.metadata).Some?
    ensures var id, out := env.insertUpload.id, Handle(st, req, files, env);
      var plan := Plan(SupportMeta(req.metadata).value, files, id);
      var rows := Rows(id, plan, env);
      && out.1.uploadId == id
      && |out.1.files| == |plan| == |rows|
      && (forall k :: 0 <= k < |plan| ==>
            && out.1.files[k] == JobInfo(env, plan[k])
            && rows[k] == RowOf(id, plan[k], JobPath(env, plan[k]))
            && out.1.files[k].storagePath == rows[k].storagePath == JobPath(env, plan[k]))
      && out.0.bucket == st.bucket + Dests(plan)
      && out.0.supportingFiles == st.supportingFiles + Accepted(rows, env.rejectedRows)
      && out.0.uploads == st.uploads + [UploadRow(id, req.uploadType, req.contractorName, req.projectName, req.notes)]
      && out.0.tmpFiles == st.tmpFiles - (TmpPaths(files) - env.unlinkFails)
  {
    var id := env.insertUpload.id;
    RecordsIndex(id, Plan(SupportMeta(req.metadata).value, files, id), env);
  }

  /** When an upload fails, the request stops there: the stores keep the
      objects and rows of every planned file before the failing one, and
      the error names the failing file's destination. */
  lemma HandleStorageFailure(st: Stores, req: RequestBody, files: seq<UploadedFile>, env: Env)
    requires env.insertUpload.Inserted? && SupportMeta(req.metadata).Some?
    requires var id := env.insertUpload.id;
      RunProgress(st.bucket, Plan(SupportMeta(req.metadata).value, files, id), env).fault.Some?
    ensures var id, out := env.insertUpload.id, Handle(st, req, files, env);
      var plan := Plan(SupportMeta(req.metadata).value, files, id);
      var p := RunProgress(st.bucket, plan, env);
      var s1 := st.(uploads := st.uploads + [UploadRow(id, req.uploadType, req.contractorName, req.projectName, req.notes)]);
      && out == (AfterStoring(s1, id, plan[..p.stored], env), UploadFailed(p.fault.value))
      && p.fault.value.path == plan[p.stored].dest
  {
  }

  /** A parent-row failure ends the request before anything is stored,
      inserted or cleaned up. */
  lemma ParentFailureTouchesNothing(st: Stores, req: RequestBody, files: seq<UploadedFile>, env: Env)
    requires env.insertUpload.InsertFailed?
    ensures Handle(st, req, files, env).0 == st
    ensures Handle(st, req, files, env).1 == UploadFailed(ParentInsertFailed(env.insertUpload.message))
  {
  }

  /** An absent or unparseable metadata field behaves as an empty list:
      only required files are recorded. */
  lemma AbsentMetadataOnlyRequired(st: Stores, req: RequestBody, files: seq<UploadedFile>, env: Env)
    requires req.metadata.NotSent? || req.metadata.Malformed?
    ensures Handle(st, req, files, env) == Handle(st, req.(metadata := GroupList([])), files, env)
    ensures var out := Handle(st, req, files, env);
      out.1.Uploaded? ==> |out.1.files| <= 3 && forall k :: 0 <= k < |out.1.files| ==> out.1.files[k].RequiredInfo?
  {
    if Handle(st, req, files, env).1.Uploaded? {
      HandleSuccess(st, req, files, env);
      var id := env.insertUpload.id;
      var plan := Plan([], files, id);
      assert plan == RequiredJobs(RequiredFields, files, id);
      RequiredJobsShape(RequiredFields, files, id);
      forall k | 0 <= k < |plan| ensures plan[k].kind.ForRequired? {
        assert plan[k] in plan;
      }
    }
  }

  /** Metadata that `for ... of` cannot walk (an object, a number, a
      boolean, `null`) fails the request after the required files have been
      stored and recorded, and leaves the temporary files in place. */
  lemma NonArrayMetadataFails(st: Stores, req: RequestBody, files: seq<UploadedFile>, env: Env)
    requires req.metadata.NotIterable? && env.insertUpload.Inserted?
    ensures var id, out := env.insertUpload.id, Handle(st, req, files, env);
      var s1 := st.(uploads := st.uploads + [UploadRow(id, req.uploadType, req.contractorName, req.projectName, req.notes)]);
      var required := RequiredJobs(RequiredFields, files, id);
      && out.1.UploadFailed?
      && (RunProgress(st.bucket, required, env).fault.None? ==>
            out == (AfterStoring(s1, id, required, env), UploadFailed(MetadataNotIterable)))
      && out.0.tmpFiles == st.tmpFiles
  {
    var required := RequiredJobs(RequiredFields, files, env.insertUpload.id);
    assert required[..|required|] == required;
  }

  /** An item whose `filename` matches no uploaded file leaves no trace:
      the request does exactly what it does without that item. */
  lemma UnmatchedItemIgnored(st: Stores, req: RequestBody, files: seq<UploadedFile>, env: Env,
                             g: nat, pre: seq<Item>, it: Item, post: seq<Item>)
    requires req.metadata.GroupList? && g < |req.metadata.groups|
    requires req.metadata.groups[g].items == pre + post
    requires forall k :: 0 <= k < |files| ==> it.filename != Str(files[k].originalname)
    ensures var groups := req.metadata.groups;
      var more := groups[g := groups[g].(items := pre + [it] + post)];
      Handle(st, req.(metadata := GroupList(more)), files, env) == Handle(st, req, files, env)
  {
    if env.insertUpload.Inserted? {
      var id, groups := env.insertUpload.id, req.metadata.groups;
      var more := groups[g := groups[g].(items := pre + [it] + post)];
      UnmatchedItemInert(groups, g, pre, it, post, files, id);
      assert SupportPlan(GroupList(more), files, id) == SupportPlan(req.metadata, files, id);
    }
  }

  /** Two items of one group that name the same uploaded file plan the same
      destination twice. */
  lemma RepeatedItemPlannedTwice(grp: Group, i: nat, j: nat, files: seq<UploadedFile>, uploadId: string)
    requires i < j < |grp.items| && grp.items[i].filename == grp.items[j].filename
    requires exists k :: 0 <= k < |files| && grp.items[i].filename == Str(files[k].originalname)
    ensures var jobs := GroupJobs(grp, files, uploadId);
      exists x, y :: 0 <= x < y < |jobs| && jobs[x].dest == jobs[y].dest
  {
    var items := grp.items;
    var one := ItemJobFor(grp.docType, grp.title, items[i], files, uploadId);
    var two := ItemJobFor(grp.docType, grp.title, items[j], files, uploadId);
    ItemJobForSpec(grp.docType, grp.title, items[i], files, uploadId);
    ItemJobForSpec(grp.docType, grp.title, items[j], files, uploadId);
    assert |one| == 1 && |two| == 1 && one[0].dest == two[0].dest;
    var left := items[..j];
    ItemJobsAround(grp.docType, grp.title, items, j, files, uploadId);
    ItemJobsAround(grp.docType, grp.title, left, i, files, uploadId);
    assert left[..i] == items[..i] && left[i] == items[i];
    var p := ItemJobs(grp.docType, grp.title, items[..i], files, uploadId);
    var q := ItemJobs(grp.docType, grp.title, left[i + 1..], files, uploadId);
    var before := ItemJobs(grp.docType, grp.title, left, files, uploadId);
    var rest := ItemJobs(grp.docType, grp.title, items[j + 1..], files, uploadId);
    MiddleIndex(p, one, q, 0);
    LeftIndex(before, two, rest, |p|);
    MiddleIndex(before, two, rest, 0);
    var jobs := GroupJobs(grp, files, uploadId);
    var x, y := |p|, |before|;
    assert x < y < |jobs| && jobs[x].dest == jobs[y].dest;
  }

  /** A destination planned twice in one group is planned twice in the
      whole metadata. */
  lemma RepeatInGroupRepeatsInPlan(groups: seq<Group>, g: nat, files: seq<UploadedFile>, uploadId: string)
    requires g < |groups|
    requires var jobs := GroupJobs(groups[g], files, uploadId);
      exists x, y :: 0 <= x < y < |jobs| && jobs[x].dest == jobs[y].dest
    ensures var jobs := SupportJobs(groups, files, uploadId);
      exists x, y :: 0 <= x < y < |jobs| && jobs[x].dest == jobs[y].dest
  {
    var mine := GroupJobs(groups[g], files, uploadId);
    var x, y :| 0 <= x < y < |mine| && mine[x].dest == mine[y].dest;
    SupportJobsAround(groups, g, files, uploadId);
    var before, after := SupportJobs(groups[..g], files, uploadId), SupportJobs(groups[g + 1..], files, uploadId);
    MiddleIndex(before, mine, after, x);
    MiddleIndex(before, mine, after, y);
  }

  /** A destination planned twice after the required files cannot be
      stored cleanly. */
  lemma RepeatBreaksClean(bucket: set<string>, required: seq<Job>, jobs: seq<Job>, plan: seq<Job>, env: Env)
    requires plan == required + jobs
    requires exists x, y :: 0 <= x < y < |jobs| && jobs[x].dest == jobs[y].dest
    ensures !StoresCleanly(bucket, plan, env)
  {
    var x, y :| 0 <= x < y < |jobs| && jobs[x].dest == jobs[y].dest;
    assert plan[|required| + x] == jobs[x] && plan[|required| + y] == jobs[y];
  }

  /** Listing the same uploaded file twice in one group plans the same
      destination twice, and the second upload (`upsert: false`) fails the
      whole request. */
  lemma RepeatedItemFails(st: Stores, req: RequestBody, files: seq<UploadedFile>, env: Env,
                          g: nat, i: nat, j: nat)
    requires req.metadata.GroupList? && g < |req.metadata.groups|
    requires i < j < |req.metadata.groups[g].items|
    requires req.metadata.groups[g].items[i].filename == req.metadata.groups[g].items[j].filename
    requires exists k :: 0 <= k < |files| && req.metadata.groups[g].items[i].filename == Str(files[k].originalname)
    ensures Handle(st, req, files, env).1.UploadFailed?
  {
    if env.insertUpload.Inserted? {
      var id, groups := env.insertUpload.id, req.metadata.groups;
      RepeatedItemPlannedTwice(groups[g], i, j, files, id);
      RepeatInGroupRepeatsInPlan(groups, g, files, id);
      RepeatBreaksClean(st.bucket, RequiredJobs(RequiredFields, files, id), SupportJobs(groups, files, id),
                        Plan(groups, files, id), env);
      HandleOkIff(st, req, files, env);
    }
  }
}

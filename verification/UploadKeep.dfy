/** The upload and version calls keep the invariant; which of them keep the ledger, exactly. */
module UploadKeep {
  import opened Core
  import opened Forest
  import opened Schema
  import opened Drive
  import opened Store
  import opened Plans
  import opened Rules
  import opened RulesKeep
  import opened TrashLaws
  import opened UploadRules

  // -------------------------------------------------------- new versions

  lemma {:induction false} PlanRowsSum(chunks: Chunks, owner: Uuid, f: Uuid, v: Uuid, plan: Plan, n: nat)
    requires Accepts(plan) && SegmentsOk(plan) && n <= |plan.chunks|
    requires forall i: nat :: i < |plan.chunks| ==>
               ChunkId(v, i) in chunks && chunks[ChunkId(v, i)].size == plan.chunks[i].size
    ensures SizeSum(chunks, v, n) == PlanSum(plan.chunks[..n])
    decreases n
  {
    if n > 0 {
      PlanRowsSum(chunks, owner, f, v, plan, n - 1);
      assert plan.chunks[..n][..n - 1] == plan.chunks[..n - 1];
    }
  }

  lemma WrapSum(n: nat, t: nat)
    requires WrapI64(n) == t
    ensures SumOk(n, t)
  {
    assert n == t + Times64(n / TWO64);
  }

  /** The rows of a new version are its accepted plan. */
  lemma InsertedPlan(db: Db, owner: Uuid, f: Uuid, v: Uuid, plan: Plan, hash: nat, keyed: bool)
    requires Accepts(plan) && SegmentsOk(plan)
    requires forall c :: c in db.chunks ==> c.version != v
    ensures var d := InsertVersion(db, owner, f, v, plan, hash, keyed);
      && PlanOk(d.versions, d.chunks, v)
      && SizeSum(d.chunks, v, plan.count) == PlanSum(plan.chunks)
  {
    var d := InsertVersion(db, owner, f, v, plan, hash, keyed);
    forall i: nat
      ensures ChunkId(v, i) in d.chunks <==> i < plan.count
      ensures i < plan.count ==> d.chunks[ChunkId(v, i)].size == plan.chunks[i].size
    {
      assert ChunkId(v, i).index == i;
    }
    PlanRowsSum(d.chunks, owner, f, v, plan, |plan.chunks|);
    assert plan.chunks[..|plan.chunks|] == plan.chunks;
    PlanSumPositive(plan.chunks);
    WrapSum(PlanSum(plan.chunks), plan.size + TAG_BYTES * plan.count);
  }

  /** Rows of other versions are untouched by an insert. */
  lemma InsertedElsewhere(db: Db, owner: Uuid, f: Uuid, v: Uuid, plan: Plan, hash: nat, keyed: bool, w: Uuid)
    requires Accepts(plan) && SegmentsOk(plan) && w != v
    requires w in db.versions && PlanOk(db.versions, db.chunks, w)
    ensures var d := InsertVersion(db, owner, f, v, plan, hash, keyed);
      PlanOk(d.versions, d.chunks, w)
  {
    var d := InsertVersion(db, owner, f, v, plan, hash, keyed);
    PlanFrame(db.versions, db.chunks, d.versions, d.chunks, w);
  }

  /** Inserting a version into tables where its file row is `files`. */
  lemma InsertKeepsChunks(db: Db, files: Files, owner: Uuid, f: Uuid, v: Uuid, plan: Plan, hash: nat, keyed: bool)
    requires Accepts(plan) && SegmentsOk(plan) && StoreOk(db) && v !in db.issued
    requires f in files && files[f].owner == owner
    requires forall g :: g in db.files ==> g in files && files[g].owner == db.files[g].owner
    requires PointersOk(files, InsertVersion(db, owner, f, v, plan, hash, keyed).versions)
    ensures var d := InsertVersion(db, owner, f, v, plan, hash, keyed);
      ChunksOk(files, d.versions, d.chunks)
  {
    hide PlanOk, Accepts, SegmentsOk, PlanRows, PointersOk;
    InsertedPlans(db, owner, f, v, plan, hash, keyed);
    InsertedChunkKeys(db, files, owner, f, v, plan, hash, keyed);
  }

  lemma InsertedPlans(db: Db, owner: Uuid, f: Uuid, v: Uuid, plan: Plan, hash: nat, keyed: bool)
    requires Accepts(plan) && SegmentsOk(plan) && StoreOk(db) && v !in db.issued
    ensures var d := InsertVersion(db, owner, f, v, plan, hash, keyed);
      forall w :: w in d.versions ==> PlanOk(d.versions, d.chunks, w)
  {
    hide PlanOk, Accepts, SegmentsOk, PlanRows;
    var d := InsertVersion(db, owner, f, v, plan, hash, keyed);
    InsertedPlan(db, owner, f, v, plan, hash, keyed);
    forall w | w in d.versions
      ensures PlanOk(d.versions, d.chunks, w)
    {
      if w != v {
        InsertedElsewhere(db, owner, f, v, plan, hash, keyed, w);
      }
    }
  }

  lemma InsertedChunkKeys(db: Db, files: Files, owner: Uuid, f: Uuid, v: Uuid, plan: Plan, hash: nat, keyed: bool)
    requires Accepts(plan) && SegmentsOk(plan) && StoreOk(db) && v !in db.issued
    requires f in files && files[f].owner == owner
    requires forall g :: g in db.files ==> g in files && files[g].owner == db.files[g].owner
    requires PointersOk(files, InsertVersion(db, owner, f, v, plan, hash, keyed).versions)
    ensures var d := InsertVersion(db, owner, f, v, plan, hash, keyed);
      forall c :: c in d.chunks ==>
        && c.version in d.versions
        && d.chunks[c].key == ChunkKey(files, d.versions, c, d.chunks[c].segment)
        && (d.chunks[c].etag.Some? <==> d.chunks[c].uploaded.Some?)
  {
    hide PlanOk, Accepts, SegmentsOk;
    var d := InsertVersion(db, owner, f, v, plan, hash, keyed);
    forall c | c in d.chunks
      ensures c.version in d.versions
      ensures d.chunks[c].key == ChunkKey(files, d.versions, c, d.chunks[c].segment)
      ensures d.chunks[c].etag.Some? <==> d.chunks[c].uploaded.Some?
    {
      if c.version != v {
        assert c in db.chunks && d.chunks[c] == db.chunks[c];
        assert db.chunks[c].key == ChunkKey(db.files, db.versions, c, db.chunks[c].segment);
      }
    }
  }

  lemma InsertedRows(db: Db, owner: Uuid, f: Uuid, v: Uuid, plan: Plan, hash: nat, keyed: bool)
    requires Accepts(plan) && SegmentsOk(plan) && StoreOk(db) && v !in db.issued
    ensures var d := InsertVersion(db, owner, f, v, plan, hash, keyed);
      && (forall c :: c in db.chunks ==> c in d.chunks && d.chunks[c] == db.chunks[c])
      && (forall c :: c in d.chunks && c.version != v ==> c in db.chunks && d.chunks[c] == db.chunks[c])
  {
  }

  lemma InsertKeepsCompleted(db: Db, d: Db, v: Uuid)
    requires StoreOk(db) && v !in db.issued
    requires d.completed == db.completed && d.issued == db.issued + {v}
    requires d.versions.Keys == db.versions.Keys + {v}
    requires forall c :: c in d.chunks && c.version != v ==> c in db.chunks && d.chunks[c] == db.chunks[c]
    ensures CompletedOk(d.versions, d.chunks, d.completed, d.issued)
  {
  }

  /** Adding chunk rows leaves every object named. */
  lemma MoreChunksCover(db: Db, d: Db)
    requires d.objects == db.objects && d.pending == db.pending
    requires forall c :: c in db.chunks ==> c in d.chunks && d.chunks[c].key == db.chunks[c].key
    ensures Covered(db) ==> Covered(d)
  {
    forall k | k in ChunkKeys(db.chunks)
      ensures k in ChunkKeys(d.chunks)
    {
      var c :| c in db.chunks && db.chunks[c].key == k;
      assert c in d.chunks && d.chunks[c].key == k;
    }
  }

  lemma InsertKeepsStore(db: Db, files: Files, owner: Uuid, f: Uuid, v: Uuid, plan: Plan, hash: nat, keyed: bool)
    requires Accepts(plan) && SegmentsOk(plan) && StoreOk(db) && v !in db.issued
    requires f in files && files[f].owner == owner
    requires forall g :: g in db.files ==> g in files && files[g].owner == db.files[g].owner
    requires PointersOk(files, InsertVersion(db, owner, f, v, plan, hash, keyed).versions)
    ensures var d := InsertVersion(db, owner, f, v, plan, hash, keyed).(files := files);
      StoreOk(d) && (Covered(db) ==> Covered(d))
  {
    hide ChunksOk, PlanRows, Accepts;
    var d := InsertVersion(db, owner, f, v, plan, hash, keyed).(files := files);
    InsertKeepsChunks(db, files, owner, f, v, plan, hash, keyed);
    InsertedRows(db, owner, f, v, plan, hash, keyed);
    MoreChunksCover(db, d);
    InsertKeepsCompleted(db, d, v);
  }

  lemma InsertVersionPointers(files: Files, versions: Versions, v: Uuid, row: Version)
    requires PointersOk(files, versions) && v !in versions && row.file in files && !row.active
    ensures PointersOk(files, versions[v := row])
  {
  }

  lemma InsertVersionKeeps(db: Db, u: Uuid, f: Uuid, v: Uuid, plan: Plan, hash: nat, keyed: bool)
    requires Inv(db) && Accepts(plan) && SegmentsOk(plan) && v !in db.issued && OwnsFile(db, u, f)
    ensures Kept(db, InsertVersion(db, u, f, v, plan, hash, keyed))
  {
    InsertVersionPointers(db.files, db.versions, v, Version(f, plan.size, plan.count, hash, false, db.clock, keyed));
    InsertKeepsStore(db, db.files, u, f, v, plan, hash, keyed);
  }

  lemma InsertFilePointers(files: Files, versions: Versions, f: Uuid, row: File, v: Uuid, version: Version)
    requires PointersOk(files, versions) && f !in files && v !in versions
    requires row.current == Some(v) && version.file == f && !version.active
    ensures PointersOk(files[f := row], versions[v := version])
  {
  }

  /** A new file with its first version keeps the store, and the drive exactly when its folder is good. */
  lemma InsertFileExactly(db: Db, u: Uuid, f: Uuid, v: Uuid, folder: Option<Uuid>, plan: Plan, hash: nat, keyed: bool)
    requires Inv(db) && Accepts(plan) && SegmentsOk(plan) && v !in db.issued && f !in db.files
    ensures var d := InsertFile(db, u, f, v, folder, plan, hash, keyed);
      && (Inv(d) <==> GoodParent(db.folders, u, folder))
      && StoreOk(d) && (Covered(db) ==> Covered(d))
  {
    var row := File(u, folder, None, plan.size, hash, Some(v));
    InsertFilePointers(db.files, db.versions, f, row, v, Version(f, plan.size, plan.count, hash, false, db.clock, keyed));
    InsertKeepsStore(db, db.files[f := row], u, f, v, plan, hash, keyed);
    InsertFileExact(db.folders, db.files, db.clock, f, row);
  }

  lemma DropFilesKeepsInv(db: Db, fs: set<Uuid>)
    requires Inv(db)
    ensures Inv(DropFiles(db, fs))
  {
    DropFilesKeepsStore(db, fs);
    DriveFrame(db.folders, db.files, db.clock, DropFiles(db, fs).files, db.clock);
  }

  lemma CreateFileKeeps(db: Db, u: Uuid, f: Uuid, v: Uuid, folder: Option<Uuid>, plan: Plan, hash: nat,
                        dup: Option<Uuid>, configured: bool, head: Head)
    requires Inv(db) && f !in db.files && v !in db.issued
    ensures Inv(CreateFile(db, u, f, v, folder, plan, hash, dup, configured, head).db)
    ensures Covered(db) && (dup.None? || !head.Missing?) ==>
              Covered(CreateFile(db, u, f, v, folder, plan, hash, dup, configured, head).db)
  {
    hide Inv, Covered, Accepts, SegmentsOk, InsertFile;
    var d := if dup.Some? then DropFiles(db, {dup.value}) else db;
    if dup.Some? {
      DropFilesKeepsInv(db, {dup.value});
    }
    if Accepts(plan) && SegmentsOk(plan) {
      InsertFileExactly(d, u, f, v, folder, plan, hash, true);
    }
  }

  lemma CreateVersionKeeps(db: Db, u: Uuid, f: Uuid, v: Uuid, plan: Plan, hash: nat, configured: bool)
    requires Inv(db) && v !in db.issued
    ensures Kept(db, CreateVersion(db, u, f, v, plan, hash, configured).db)
  {
    hide InsertVersion, Inv, Covered, Accepts;
    if Accepts(plan) && SegmentsOk(plan) && OwnsLiveFile(db, u, f) {
      InsertVersionKeeps(db, u, f, v, plan, hash, true);
    }
  }

  // ------------------------------------------------------------ bulk init

  /** The folder of each request passes the check `create_file` makes. */
  predicate GoodFolders(fs: Folders, u: Uuid, reqs: seq<InitRequest>) {
    forall r :: r in reqs ==> GoodParent(fs, u, r.folder)
  }

  lemma {:induction false} InitAllKeepsRows(db: Db, u: Uuid, reqs: seq<InitRequest>, g: Uuid)
    requires forall r :: r in reqs ==> Accepts(r.plan)
    requires forall r :: r in reqs ==> r.file != g
    requires InitAll(db, u, reqs).Ok? && g in db.files
    ensures var d := InitAll(db, u, reqs).value;
      g in d.files && d.files[g] == db.files[g] && d.folders == db.folders && d.clock == db.clock
    decreases |reqs|
  {
    if reqs != [] {
      var r := reqs[0];
      InitAllKeepsRows(InsertFile(db, u, r.file, r.version, r.folder, r.plan, 0, false), u, reqs[1..], g);
    }
  }

  /** An accepted batch keeps the invariant exactly when every folder would pass the check. */
  lemma {:induction false} InitAllExact(db: Db, u: Uuid, reqs: seq<InitRequest>)
    requires Inv(db) && FreshIds(db, reqs)
    requires forall r :: r in reqs ==> Accepts(r.plan)
    requires InitAll(db, u, reqs).Ok?
    ensures Inv(InitAll(db, u, reqs).value) <==> GoodFolders(db.folders, u, reqs)
    ensures GoodFolders(db.folders, u, reqs) && Covered(db) ==> Covered(InitAll(db, u, reqs).value)
    decreases |reqs|
  {
    hide StoreOk, Covered, Accepts, SegmentsOk, InsertVersion;
    if reqs != [] {
      var r, rest := reqs[0], reqs[1..];
      var d := InsertFile(db, u, r.file, r.version, r.folder, r.plan, 0, false);
      assert r in reqs;
      InsertFileExactly(db, u, r.file, r.version, r.folder, r.plan, 0, false);
      InsertedIds(db, u, r.file, r.version, r.folder, r.plan);
      FreshRest(db, d, reqs);
      if GoodParent(db.folders, u, r.folder) {
        InitAllExact(d, u, rest);
        assert forall q :: q in reqs <==> q == r || q in rest;
      } else {
        InitAllKeepsRows(d, u, rest, r.file);
        var e := InitAll(db, u, reqs).value;
        MisplacedFile(e.folders, e.files, e.clock, r.file);
      }
    }
  }

  lemma InsertedIds(db: Db, u: Uuid, f: Uuid, v: Uuid, folder: Option<Uuid>, plan: Plan)
    requires Accepts(plan) && SegmentsOk(plan)
    ensures var d := InsertFile(db, u, f, v, folder, plan, 0, false);
      && d.files.Keys == db.files.Keys + {f} && d.issued == db.issued + {v}
      && d.folders == db.folders && d.clock == db.clock
      && d.files[f] == File(u, folder, None, plan.size, 0, Some(v))
  {
  }

  lemma FreshRest(db: Db, d: Db, reqs: seq<InitRequest>)
    requires reqs != [] && FreshIds(db, reqs)
    requires d.files.Keys == db.files.Keys + {reqs[0].file} && d.issued == db.issued + {reqs[0].version}
    ensures FreshIds(d, reqs[1..])
    ensures forall r :: r in reqs[1..] ==> r.file != reqs[0].file
  {
    forall r | r in reqs[1..]
      ensures r.file != reqs[0].file && r.version != reqs[0].version && r in reqs
    {
      var i :| 0 <= i < |reqs[1..]| && reqs[1..][i] == r;
      assert reqs[i + 1] == r;
    }
  }

  /** `bulk_init_uploads` keeps the invariant exactly when it fails or every folder would pass the check. */
  lemma BulkInitExact(db: Db, u: Uuid, reqs: seq<InitRequest>, configured: bool)
    requires Inv(db) && FreshIds(db, reqs)
    ensures var o := BulkInit(db, u, reqs, configured);
      && (Inv(o.db) <==> (o.status == Done ==> GoodFolders(db.folders, u, reqs)))
      && (Inv(o.db) && Covered(db) ==> Covered(o.db))
  {
    if BulkInit(db, u, reqs, configured).status == Done {
      InitAllExact(db, u, reqs);
    }
  }

  // ---------------------------------------------------- marks and pointers

  /** Changing only etags and upload times, never back to none. */
  ghost predicate OnlyMarks(chunks: Chunks, chunks': Chunks) {
    && chunks'.Keys == chunks.Keys
    && forall c :: c in chunks ==>
         && chunks'[c].key == chunks[c].key && chunks'[c].segment == chunks[c].segment
         && chunks'[c].size == chunks[c].size
         && (chunks'[c].etag.Some? <==> chunks'[c].uploaded.Some?)
         && (chunks[c].uploaded.Some? ==> chunks'[c].uploaded.Some?)
  }

  lemma MarksKeepChunks(files: Files, versions: Versions, chunks: Chunks, chunks': Chunks)
    requires PointersOk(files, versions) && ChunksOk(files, versions, chunks) && OnlyMarks(chunks, chunks')
    ensures ChunksOk(files, versions, chunks')
  {
    forall v | v in versions
      ensures PlanOk(versions, chunks', v)
    {
      PlanFrame(versions, chunks, versions, chunks', v);
    }
  }

  lemma MarksKeep(db: Db, chunks': Chunks)
    requires Inv(db) && OnlyMarks(db.chunks, chunks')
    ensures Kept(db, db.(chunks := chunks'))
  {
    hide ChunksOk, PointersOk, DriveOk;
    MarksKeepChunks(db.files, db.versions, db.chunks, chunks');
    MoreChunksCover(db, db.(chunks := chunks'));
  }

  lemma ActivatePointers(db: Db, v: Uuid)
    requires PointersOk(db.files, db.versions) && v in db.versions
    ensures PointersOk(Activate(db, v).files, Activate(db, v).versions)
  {
  }

  lemma ActivateKeys(db: Db, v: Uuid)
    requires StoreOk(db) && v in db.versions
    requires PointersOk(Activate(db, v).files, Activate(db, v).versions)
    ensures ChunksOk(Activate(db, v).files, Activate(db, v).versions, db.chunks)
  {
    hide PlanOk, CompletedOk, IdsOk;
    var d := Activate(db, v);
    forall c | c in db.chunks
      ensures db.chunks[c].key == ChunkKey(d.files, d.versions, c, db.chunks[c].segment)
    {
      assert db.chunks[c].key == ChunkKey(db.files, db.versions, c, db.chunks[c].segment);
    }
    ActivatePlans(db, v);
  }

  lemma ActivatePlans(db: Db, v: Uuid)
    requires v in db.versions && db.versions[v].file in db.files
    requires forall w :: w in db.versions ==> PlanOk(db.versions, db.chunks, w)
    ensures forall w :: w in Activate(db, v).versions ==> PlanOk(Activate(db, v).versions, db.chunks, w)
  {
    hide PlanOk;
    var d := Activate(db, v);
    forall w | w in d.versions
      ensures PlanOk(d.versions, db.chunks, w)
    {
      PlanFrame(db.versions, db.chunks, d.versions, db.chunks, w);
    }
  }

  lemma ActivateKeeps(db: Db, v: Uuid)
    requires Inv(db) && v in db.versions
    ensures Kept(db, Activate(db, v))
  {
    hide ChunksOk, DriveOk;
    var d := Activate(db, v);
    ActivatePointers(db, v);
    ActivateKeys(db, v);
    DriveFrame(db.folders, db.files, db.clock, d.files, db.clock);
  }

  lemma EtagsMatch(db: Db)
    requires Inv(db)
    ensures PointersOk(db.files, db.versions)
    ensures forall c :: c in db.chunks ==> (db.chunks[c].etag.Some? <==> db.chunks[c].uploaded.Some?)
  {
  }

  /** Tables that differ from `db` only in hashes, file keys and the like. */
  lemma MetadataKeepsStore(db: Db, files: Files, versions: Versions)
    requires StoreOk(db) && files.Keys == db.files.Keys && versions.Keys == db.versions.Keys
    requires forall f :: f in files ==> files[f].owner == db.files[f].owner && files[f].current == db.files[f].current
    requires forall v :: v in versions ==>
               && versions[v].file == db.versions[v].file && versions[v].active == db.versions[v].active
               && versions[v].size == db.versions[v].size && versions[v].count == db.versions[v].count
    ensures PointersOk(files, versions) && ChunksOk(files, versions, db.chunks)
  {
    forall c | c in db.chunks
      ensures db.chunks[c].key == ChunkKey(files, versions, c, db.chunks[c].segment)
    {
      assert db.chunks[c].key == ChunkKey(db.files, db.versions, c, db.chunks[c].segment);
    }
    forall v | v in versions
      ensures PlanOk(versions, db.chunks, v)
    {
      PlanFrame(db.versions, db.chunks, versions, db.chunks, v);
    }
  }

  lemma SetFileKeyKeeps(db: Db, v: Uuid, hash: nat)
    requires Inv(db)
    ensures Kept(db, SetFileKey(db, v, hash))
  {
    hide ChunksOk, PointersOk, DriveOk, IdsOk, CompletedOk;
    if v in db.versions {
      var versions := db.versions[v := db.versions[v].(keyed := true, hash := hash)];
      var files := SetFileKey(db, v, hash).files;
      assert SamePlaces(files, db.files);
      MetadataKeepsStore(db, files, versions);
      DriveFrame(db.folders, db.files, db.clock, files, db.clock);
      SameIds(db, versions);
    }
  }

  lemma SameIds(db: Db, versions: Versions)
    requires versions.Keys == db.versions.Keys
    requires IdsOk(db.versions, db.pending, db.issued, db.retired)
    requires CompletedOk(db.versions, db.chunks, db.completed, db.issued)
    ensures IdsOk(versions, db.pending, db.issued, db.retired)
    ensures CompletedOk(versions, db.chunks, db.completed, db.issued)
  {
  }

  lemma ReportedMarks(chunks: Chunks, v: Uuid, etags: map<nat, string>, now: Time)
    requires forall c :: c in chunks ==> (chunks[c].etag.Some? <==> chunks[c].uploaded.Some?)
    ensures OnlyMarks(chunks, MarkReported(chunks, v, etags, now))
  {
  }

  lemma VerifiedMark(chunks: Chunks, c: ChunkId, etag: string, now: Time)
    requires c in chunks
    requires forall d :: d in chunks ==> (chunks[d].etag.Some? <==> chunks[d].uploaded.Some?)
    ensures OnlyMarks(chunks, chunks[c := chunks[c].(etag := Some(etag), uploaded := Some(now))])
  {
  }

  lemma CompletedKeeps(db: Db, v: Uuid)
    requires Inv(db) && v in db.versions && Uploaded(db.chunks, v)
    ensures Kept(db, db.(completed := db.completed + {v}))
  {
  }

  lemma CompleteUploadKeeps(db: Db, u: Uuid, v: Uuid, etags: map<nat, string>)
    requires Inv(db)
    ensures Kept(db, CompleteUpload(db, u, v, etags).db)
  {
    hide OnlyMarks, Inv, Covered, MarkReported;
    var d := db.(chunks := MarkReported(db.chunks, v, etags, db.clock));
    EtagsMatch(db);
    ReportedMarks(db.chunks, v, etags, db.clock);
    MarksKeep(db, d.chunks);
    NothingMissing(d.chunks, v);
    if v in db.versions && MissingChunks(d.chunks, v) == {} {
      ActivateKeeps(d, v);
      CompletedKeeps(Activate(d, v), v);
    }
  }

  lemma NothingMissing(chunks: Chunks, v: Uuid)
    ensures MissingChunks(chunks, v) == {} <==> Uploaded(chunks, v)
  {
    if MissingChunks(chunks, v) == {} {
      forall c | c in chunks && c.version == v
        ensures chunks[c].uploaded.Some?
      {
        assert chunks[c].uploaded.None? ==> c.index in MissingChunks(chunks, v);
      }
    }
  }

  lemma VerifyChunkKeeps(db: Db, u: Uuid, v: Uuid, i: nat, etag: string, configured: bool, head: Head)
    requires Inv(db)
    ensures Kept(db, VerifyChunk(db, u, v, i, etag, configured, head).db)
  {
    hide OnlyMarks, Inv, Covered;
    var c := ChunkId(v, i);
    EtagsMatch(db);
    if c in db.chunks {
      VerifiedMark(db.chunks, c, etag, db.clock);
      MarksKeep(db, db.chunks[c := db.chunks[c].(etag := Some(etag), uploaded := Some(db.clock))]);
    }
  }

  lemma RestoreVersionKeeps(db: Db, u: Uuid, f: Uuid, v: Uuid)
    requires Inv(db)
    ensures Kept(db, RestoreVersion(db, u, f, v).db)
  {
    if v in db.versions {
      ActivateKeeps(db, v);
    }
  }

  lemma DeleteVersionKeeps(db: Db, u: Uuid, f: Uuid, v: Uuid, removed: set<Key>)
    requires Inv(db)
    ensures Inv(DeleteVersion(db, u, f, v, removed).db)
  {
    DropVersionsKeepsInv(db, {v});
  }

  lemma CancelIsDropAndQueue(db: Db, u: Uuid, f: Uuid, v: Uuid)
    requires Inv(db) && CancelUpload(db, u, f, v).status == Done
    ensures CancelUpload(db, u, f, v).db == Enqueue(DropVersions(db, {v}), KeysOf(db.chunks, {v}), u)
  {
    var d := DropVersions(db, {v});
    DropVersionsKeepsInv(db, {v});
    assert FilesPointingAt(d, u, f, v) == {};
    DropNoFiles(d);
  }

  lemma CancelUploadKeeps(db: Db, u: Uuid, f: Uuid, v: Uuid)
    requires Inv(db)
    ensures Kept(db, CancelUpload(db, u, f, v).db)
  {
    if CancelUpload(db, u, f, v).status == Done {
      CancelIsDropAndQueue(db, u, f, v);
      DropAndEnqueueKeeps(db, {v}, u);
    }
  }
}

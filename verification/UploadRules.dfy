/** What the upload, version and chunk calls do to the tables. */
module UploadRules {
  import opened Core
  import opened Forest
  import opened Schema
  import opened Drive
  import opened Store
  import opened Plans
  import opened Rules
  import opened Sizes

  const USER_STORAGE_QUOTA_BYTES := 10 * 1024 * 1024 * 1024

  /** What a HEAD request answers. */
  datatype Head = Present | Missing | Unreachable

  // -------------------------------------------------------- new versions

  /** `CHECK (segment_index >= 0)` on every planned chunk. */
  predicate SegmentsOk(plan: Plan) {
    forall i :: 0 <= i < |plan.chunks| ==> plan.chunks[i].segment >= 0
  }

  /** The first `n` chunk rows of an accepted plan. */
  function PlanRows(owner: Uuid, f: Uuid, v: Uuid, plan: Plan, n: nat): Chunks
    requires Accepts(plan) && SegmentsOk(plan) && n <= |plan.chunks|
  {
    map i: nat | i < n :: ChunkId(v, i) :=
      Chunk(plan.chunks[i].segment, plan.chunks[i].size, Key(owner, f, v, plan.chunks[i].segment, i), None, None)
  }

  /** The version row and chunk rows of a new upload, not yet active. */
  function InsertVersion(db: Db, owner: Uuid, f: Uuid, v: Uuid, plan: Plan, hash: nat, keyed: bool): Db
    requires Accepts(plan) && SegmentsOk(plan)
  {
    db.(versions := db.versions[v := Version(f, plan.size, plan.count, hash, false, db.clock, keyed)],
        chunks := db.chunks + PlanRows(owner, f, v, plan, |plan.chunks|),
        issued := db.issued + {v})
  }

  /** A new file row with its first version as current. */
  function InsertFile(db: Db, u: Uuid, f: Uuid, v: Uuid, folder: Option<Uuid>, plan: Plan, hash: nat, keyed: bool): Db
    requires Accepts(plan) && SegmentsOk(plan)
  {
    var d := InsertVersion(db, u, f, v, plan, hash, keyed);
    d.(files := db.files[f := File(u, folder, None, plan.size, hash, Some(v))])
  }

  /** A live, completely uploaded file of `u` in `folder` with the same content hash. */
  predicate IsDuplicate(db: Db, u: Uuid, folder: Option<Uuid>, hash: nat, e: Uuid) {
    && OwnsLiveFile(db, u, e) && db.files[e].folder == folder && db.files[e].hash == hash
    && db.files[e].current.Some? && db.files[e].current.value in db.versions
    && db.versions[db.files[e].current.value].active
  }

  /** What the dedup query may return: one matching row, or nothing when there is none. */
  ghost predicate DedupAnswer(db: Db, u: Uuid, folder: Option<Uuid>, hash: nat, dup: Option<Uuid>) {
    match dup
    case Some(e) => IsDuplicate(db, u, folder, hash, e)
    case None => forall e :: e in db.files ==> !IsDuplicate(db, u, folder, hash, e)
  }

  /**
   `create_file`. `dup` is the row of the dedup query, `head` the answer to the
   HEAD of its first chunk; a missing object deletes that file row (with its
   versions and chunks, by cascade) before the new rows are written.
   */
  ghost function CreateFile(db: Db, u: Uuid, f: Uuid, v: Uuid, folder: Option<Uuid>, plan: Plan, hash: nat,
                            dup: Option<Uuid>, configured: bool, head: Head): Outcome
  {
    if !Accepts(plan) then Outcome(db, Failed(BadRequest))
    else if Usage(db, u) + plan.size > USER_STORAGE_QUOTA_BYTES then Outcome(db, Failed(BadRequest))
    else if !GoodParent(db.folders, u, folder) then Outcome(db, Failed(NotFound))
    else if dup.Some? && (!configured || head.Present?) then Outcome(db, Done)
    else if dup.Some? && head.Unreachable? then Outcome(db, Failed(Unavailable))
    else
      var d := if dup.Some? then DropFiles(db, {dup.value}) else db;
      if !configured then Outcome(d, Failed(Unavailable))
      else if !SegmentsOk(plan) then Outcome(d, Failed(Internal))
      else Outcome(InsertFile(d, u, f, v, folder, plan, hash, true), Done)
  }

  /** `create_version`: a second version of a live file; identical active content is a dedup hit. */
  ghost function CreateVersion(db: Db, u: Uuid, f: Uuid, v: Uuid, plan: Plan, hash: nat, configured: bool): Outcome
  {
    if !Accepts(plan) then Outcome(db, Failed(BadRequest))
    else if Usage(db, u) + plan.size > USER_STORAGE_QUOTA_BYTES then Outcome(db, Failed(BadRequest))
    else if !OwnsLiveFile(db, u, f) then Outcome(db, Failed(NotFound))
    else if exists w :: w in db.versions && db.versions[w].file == f && db.versions[w].active && db.versions[w].hash == hash
      then Outcome(db, Done)
    else if !configured then Outcome(db, Failed(Unavailable))
    else if !SegmentsOk(plan) then Outcome(db, Failed(Internal))
    else Outcome(InsertVersion(db, u, f, v, plan, hash, true), Done)
  }

  // ------------------------------------------------------------ bulk init

  datatype InitRequest = InitRequest(file: Uuid, version: Uuid, folder: Option<Uuid>, plan: Plan)

  function BulkSize(reqs: seq<InitRequest>): int {
    if reqs == [] then 0 else reqs[0].plan.size + BulkSize(reqs[1..])
  }

  /** The inserts in order, up to the first one refused; only the foreign key looks at the folder. */
  function InitAll(db: Db, u: Uuid, reqs: seq<InitRequest>): Result<Db>
    requires forall r :: r in reqs ==> Accepts(r.plan)
    decreases |reqs|
  {
    if reqs == [] then Ok(db)
    else
      var r := reqs[0];
      if r.folder.Some? && r.folder.value !in db.folders then Err(BadRequest)
      else if !SegmentsOk(r.plan) then Err(Internal)
      else InitAll(InsertFile(db, u, r.file, r.version, r.folder, r.plan, 0, false), u, reqs[1..])
  }

  /** `bulk_init_uploads`; the batch total is added up in an `i64`. */
  ghost function BulkInit(db: Db, u: Uuid, reqs: seq<InitRequest>, configured: bool): Outcome {
    if exists r :: r in reqs && !Accepts(r.plan) then Outcome(db, Failed(BadRequest))
    else if WrapI64(Usage(db, u) + BulkSize(reqs)) > USER_STORAGE_QUOTA_BYTES then Outcome(db, Failed(BadRequest))
    else if !configured then Outcome(db, Failed(Unavailable))
    else
      match InitAll(db, u, reqs)
      case Err(e) => Outcome(db, Failed(e))
      case Ok(d) => Outcome(d, Done)
  }

  /** The ids a call draws are new: file ids unused, version ids never drawn before, none twice. */
  ghost predicate FreshIds(db: Db, reqs: seq<InitRequest>) {
    && (forall r :: r in reqs ==> r.file !in db.files && r.version !in db.issued)
    && (forall i, j :: 0 <= i < j < |reqs| ==> reqs[i].file != reqs[j].file && reqs[i].version != reqs[j].version)
  }

  // ------------------------------------------------- completing an upload

  predicate OwnsLiveVersion(db: Db, u: Uuid, v: Uuid) {
    v in db.versions && OwnsLiveFile(db, u, db.versions[v].file)
  }

  /** Chunks of `v` with a reported etag and no upload time are marked. */
  function MarkReported(chunks: Chunks, v: Uuid, etags: map<nat, string>, now: Time): Chunks {
    map c | c in chunks ::
      if c.version == v && c.index in etags && chunks[c].uploaded.None?
      then chunks[c].(etag := Some(etags[c.index]), uploaded := Some(now))
      else chunks[c]
  }

  function MissingChunks(chunks: Chunks, v: Uuid): set<nat> {
    set c | c in chunks && c.version == v && chunks[c].uploaded.None? :: c.index
  }

  function UploadedChunks(chunks: Chunks, v: Uuid): set<nat> {
    set c | c in chunks && c.version == v && chunks[c].uploaded.Some? :: c.index
  }

  /** `v` becomes its file's only active version and the current one. */
  function Activate(db: Db, v: Uuid): Db
    requires v in db.versions && db.versions[v].file in db.files
  {
    var f := db.versions[v].file;
    db.(versions := map w | w in db.versions ::
          if db.versions[w].file == f then db.versions[w].(active := w == v) else db.versions[w],
        files := db.files[f := db.files[f].(current := Some(v))])
  }

  /** `complete_upload`: marks survive even when chunks are missing and the call fails. */
  function CompleteUpload(db: Db, u: Uuid, v: Uuid, etags: map<nat, string>): Outcome {
    if !OwnsLiveVersion(db, u, v) then Outcome(db, Failed(NotFound))
    else if db.versions[v].active then Outcome(db, Done)
    else if forall c :: c in db.chunks ==> c.version != v then Outcome(db, Failed(BadRequest))
    else
      var d := db.(chunks := MarkReported(db.chunks, v, etags, db.clock));
      if MissingChunks(d.chunks, v) != {} then Outcome(d, Failed(BadRequest))
      else Outcome(Activate(d, v).(completed := db.completed + {v}), Done)
  }

  /** `verify_chunk`: an unchanged etag is answered from the row, else the object must exist. */
  function VerifyChunk(db: Db, u: Uuid, v: Uuid, i: nat, etag: string, configured: bool, head: Head): Outcome {
    var c := ChunkId(v, i);
    if c !in db.chunks || !OwnsLiveVersion(db, u, v) then Outcome(db, Failed(NotFound))
    else if db.chunks[c].etag == Some(etag) then Outcome(db, Done)
    else if configured && head.Unreachable? then Outcome(db, Failed(Unavailable))
    else if configured && head.Missing? then Outcome(db, Failed(BadRequest))
    else Outcome(db.(chunks := db.chunks[c := db.chunks[c].(etag := Some(etag), uploaded := Some(db.clock))]), Done)
  }

  /**
   The metadata part of `bulk_complete_uploads`: the wrapped file key and content
   hash of a version, and the hash of the files that point at it, of any user.
   */
  function SetFileKey(db: Db, v: Uuid, hash: nat): Db {
    if v !in db.versions then db
    else db.(versions := db.versions[v := db.versions[v].(keyed := true, hash := hash)],
             files := map f | f in db.files ::
               if db.files[f].current == Some(v) then db.files[f].(hash := hash) else db.files[f])
  }

  // ------------------------------------------------------- version calls

  predicate IsVersionOf(db: Db, u: Uuid, f: Uuid, v: Uuid) {
    v in db.versions && db.versions[v].file == f && OwnsFile(db, u, f)
  }

  /** `restore_version`: makes any version of a live file the active one, uploaded or not. */
  function RestoreVersion(db: Db, u: Uuid, f: Uuid, v: Uuid): Outcome {
    if !IsVersionOf(db, u, f, v) || db.files[f].deleted.Some? then Outcome(db, Failed(NotFound))
    else if db.versions[v].active then Outcome(db, Done)
    else Outcome(Activate(db, v), Done)
  }

  /** `delete_version`: rows go unqueued; `removed` is what the best-effort delete took from the bucket. */
  function DeleteVersion(db: Db, u: Uuid, f: Uuid, v: Uuid, removed: set<Key>): Outcome {
    if !IsVersionOf(db, u, f, v) || db.files[f].deleted.Some? then Outcome(db, Failed(NotFound))
    else if db.versions[v].active then Outcome(db, Failed(BadRequest))
    else
      var d := DropVersions(db, {v});
      Outcome(d.(objects := d.objects - (removed * KeysOf(db.chunks, {v}))), Done)
  }

  /** The file rows the last delete of `cancel_upload` looks for, once the version row is gone. */
  function FilesPointingAt(db: Db, u: Uuid, f: Uuid, v: Uuid): set<Uuid> {
    set g | g in db.files && g == f && db.files[g].owner == u && db.files[g].current == Some(v)
  }

  /** `cancel_upload`: chunk rows, version row, then files still pointing at the version. */
  function CancelUpload(db: Db, u: Uuid, f: Uuid, v: Uuid): Outcome {
    if !IsVersionOf(db, u, f, v) then Outcome(db, Failed(NotFound))
    else if db.versions[v].active then Outcome(db, Failed(BadRequest))
    else
      var d := DropVersions(db, {v});
      var e := DropFiles(d, FilesPointingAt(d, u, f, v));
      Outcome(Enqueue(e, KeysOf(db.chunks, {v}), u), Done)
  }
}

/**
 What each upload, version and storage call does, row by row, without reference
 to the updates that `UploadRules` and `Ledger` build the calls from.
 */
module UploadEffects {
  import opened Core
  import opened Forest
  import opened Schema
  import opened Drive
  import opened Store
  import opened Plans
  import Rules
  import opened RulesKeep
  import opened Sizes
  import UploadRules
  import opened UploadKeep
  import Ledger
  import opened TrashEffects

  const QUOTA := 10_737_418_240

  // --------------------------------------------------------- new uploads

  /** Version `v` of file `f` and its chunk rows are new, as planned, inactive and not uploaded. */
  ghost predicate AddsVersion(db: Db, d: Db, u: Uuid, f: Uuid, v: Uuid, plan: Plan, hash: nat, keyed: bool) {
    && |plan.chunks| == plan.count
    && (forall w :: w in d.versions <==> w in db.versions || w == v)
    && (forall w :: w in db.versions && w != v ==> d.versions[w] == db.versions[w])
    && d.versions[v].file == f && d.versions[v].size == plan.size && d.versions[v].count == plan.count
    && d.versions[v].hash == hash && !d.versions[v].active && d.versions[v].created == db.clock && d.versions[v].keyed == keyed
    && (forall c :: c in d.chunks <==> c in db.chunks || (c.version == v && c.index < plan.count))
    && (forall c :: c in db.chunks && c.version != v ==> d.chunks[c] == db.chunks[c])
    && (forall i: nat :: i < |plan.chunks| ==> IsPlanned(d.chunks, u, f, v, plan, i))
    && d == db.(files := d.files, versions := d.versions, chunks := d.chunks, issued := db.issued + {v})
  }

  ghost predicate IsPlanned(chunks: Chunks, u: Uuid, f: Uuid, v: Uuid, plan: Plan, i: nat)
    requires i < |plan.chunks|
  {
    && ChunkId(v, i) in chunks
    && var row := chunks[ChunkId(v, i)];
       && row.segment == plan.chunks[i].segment && row.size == plan.chunks[i].size
       && row.key == Key(u, f, v, row.segment, i) && row.etag.None? && row.uploaded.None?
  }

  /** File `f` is new and points at `v`. */
  ghost predicate AddsFile(files: Files, files': Files, u: Uuid, f: Uuid, v: Uuid, folder: Option<Uuid>, size: int, hash: nat) {
    && (forall g :: g in files' <==> g in files || g == f)
    && (forall g :: g in files && g != f ==> files'[g] == files[g])
    && files'[f].owner == u && files'[f].folder == folder && files'[f].deleted.None? && files'[f].size == size
    && files'[f].hash == hash && files'[f].current == Some(v)
  }

  lemma InsertVersionRows(db: Db, u: Uuid, f: Uuid, v: Uuid, plan: Plan, hash: nat, keyed: bool)
    requires Accepts(plan) && UploadRules.SegmentsOk(plan)
    ensures AddsVersion(db, UploadRules.InsertVersion(db, u, f, v, plan, hash, keyed), u, f, v, plan, hash, keyed)
  {
    var d := UploadRules.InsertVersion(db, u, f, v, plan, hash, keyed);
    forall i: nat | i < |plan.chunks|
      ensures IsPlanned(d.chunks, u, f, v, plan, i)
    {
      assert ChunkId(v, i) in UploadRules.PlanRows(u, f, v, plan, |plan.chunks|);
    }
    forall c: ChunkId
      ensures c in d.chunks <==> c in db.chunks || (c.version == v && c.index < plan.count)
    {
      assert c == ChunkId(c.version, c.index);
    }
  }

  lemma InsertFileRows(db: Db, u: Uuid, f: Uuid, v: Uuid, folder: Option<Uuid>, plan: Plan, hash: nat, keyed: bool)
    requires Accepts(plan) && UploadRules.SegmentsOk(plan)
    ensures var d := UploadRules.InsertFile(db, u, f, v, folder, plan, hash, keyed);
      AddsVersion(db, d, u, f, v, plan, hash, keyed) && AddsFile(db.files, d.files, u, f, v, folder, plan.size, hash)
  {
    InsertVersionRows(db, u, f, v, plan, hash, keyed);
    hide Accepts, UploadRules.SegmentsOk, UploadRules.PlanRows;
  }

  /** The file rows `fs` are gone with their versions and chunks, and nothing is queued. */
  ghost predicate DropsUnqueued(db: Db, d: Db, f: Uuid) {
    && d == db.(files := d.files, versions := d.versions, chunks := d.chunks)
    && (forall g :: g in d.files <==> g in db.files && g != f) && (forall g :: g in d.files ==> d.files[g] == db.files[g])
    && (forall v :: v in d.versions <==> v in db.versions && db.versions[v].file != f)
    && (forall v :: v in d.versions ==> d.versions[v] == db.versions[v])
    && (forall c :: c in d.chunks <==> c in db.chunks && c.version in d.versions)
    && (forall c :: c in d.chunks ==> d.chunks[c] == db.chunks[c])
  }

  lemma DropFileRows(db: Db, f: Uuid)
    requires StoreOk(db)
    ensures DropsUnqueued(db, DropFiles(db, {f}), f)
  {
    hide StoreOk, WithoutVersions, VersionsOf;
    RowsHaveVersions(db);
    LostChunks(db.versions, db.chunks, {f});
    OthersPointElsewhere(db, f);
  }

  lemma OthersPointElsewhere(db: Db, f: Uuid)
    requires PointersOk(db.files, db.versions)
    ensures NullPointers(db.files, VersionsOf(db.versions, {f})) - {f} == db.files - {f}
  {
  }

  /** The folder is absent or a live one of the user. */
  predicate MayHold(db: Db, u: Uuid, folder: Option<Uuid>) {
    folder.Some? ==> folder.value in db.folders && db.folders[folder.value].owner == u && db.folders[folder.value].deleted.None?
  }

  predicate NoNegativeSegment(plan: Plan) {
    forall i :: 0 <= i < |plan.chunks| ==> plan.chunks[i].segment >= 0
  }

  /**
   `create_file`: which requests it refuses, when it answers with an existing
   duplicate, and the rows it writes otherwise, after removing a duplicate whose
   first object is missing.
   */
  lemma CreateFileRows(db: Db, u: Uuid, f: Uuid, v: Uuid, folder: Option<Uuid>, plan: Plan, hash: nat,
                       dup: Option<Uuid>, configured: bool, head: UploadRules.Head)
    requires Rules.Inv(db)
    ensures var o := UploadRules.CreateFile(db, u, f, v, folder, plan, hash, dup, configured, head);
      var refused := !Accepts(plan) || Usage(db, u) + plan.size > QUOTA;
      && (refused ==> o == Outcome(db, Failed(BadRequest)))
      && (!refused && !MayHold(db, u, folder) ==> o == Outcome(db, Failed(NotFound)))
      && (!refused && MayHold(db, u, folder) ==>
            && (dup.Some? && (!configured || head.Present?) ==> o == Outcome(db, Done))
            && (dup.Some? && configured && head.Unreachable? ==> o == Outcome(db, Failed(Unavailable)))
            && (dup.None? && !configured ==> o == Outcome(db, Failed(Unavailable)))
            && (configured && (dup.None? || head.Missing?) ==>
                  && o.status == (if NoNegativeSegment(plan) then Done else Failed(Internal))
                  && exists e :: && (if dup.None? then e == db else DropsUnqueued(db, e, dup.value))
                                 && (o.status != Done ==> o.db == e)
                                 && (o.status == Done ==> && AddsVersion(e, o.db, u, f, v, plan, hash, true)
                                                          && AddsFile(e.files, o.db.files, u, f, v, folder, plan.size, hash))))
  {
    hide Rules.Inv, Accepts, AddsVersion, AddsFile, DropsUnqueued, UploadRules.InsertFile, DropFiles, Usage;
    var e := if dup.None? then db else DropFiles(db, {dup.value});
    if dup.Some? {
      PointersHold(db);
      hide StoreOk, PointersOk;
      DropFileRows(db, dup.value);
    }
    if Accepts(plan) && UploadRules.SegmentsOk(plan) {
      InsertFileRows(e, u, f, v, folder, plan, hash, true);
    }
  }

  /** `create_version`: the same for a further version of a live file; identical active content adds nothing. */
  lemma CreateVersionRows(db: Db, u: Uuid, f: Uuid, v: Uuid, plan: Plan, hash: nat, configured: bool)
    ensures var o := UploadRules.CreateVersion(db, u, f, v, plan, hash, configured);
      var refused := !Accepts(plan) || Usage(db, u) + plan.size > QUOTA;
      var mine := f in db.files && db.files[f].owner == u && db.files[f].deleted.None?;
      var same := exists w :: w in db.versions && db.versions[w].file == f && db.versions[w].active && db.versions[w].hash == hash;
      && (refused ==> o == Outcome(db, Failed(BadRequest)))
      && (!refused && !mine ==> o == Outcome(db, Failed(NotFound)))
      && (!refused && mine && same ==> o == Outcome(db, Done))
      && (!refused && mine && !same && !configured ==> o == Outcome(db, Failed(Unavailable)))
      && (!refused && mine && !same && configured ==>
            && o.status == (if NoNegativeSegment(plan) then Done else Failed(Internal))
            && (o.status != Done ==> o.db == db)
            && (o.status == Done ==> AddsVersion(db, o.db, u, f, v, plan, hash, true) && o.db.files == db.files))
  {
    hide Accepts, AddsVersion, Usage, UploadRules.PlanRows;
    if Accepts(plan) && UploadRules.SegmentsOk(plan) {
      InsertVersionRows(db, u, f, v, plan, hash, true);
    }
  }

  // -------------------------------------------------- finishing an upload

  /** `v` is its file's only active version and the current one; nothing else differs in files and versions. */
  ghost predicate BecomesActive(db: Db, d: Db, v: Uuid)
    requires v in db.versions && db.versions[v].file in db.files
  {
    var f := db.versions[v].file;
    && d.versions.Keys == db.versions.Keys && d.files.Keys == db.files.Keys
    && d.versions[v].active
    && (forall w :: w in db.versions && w != v && db.versions[w].file == f ==> !d.versions[w].active)
    && (forall w :: w in db.versions ==> d.versions[w] == db.versions[w].(active := d.versions[w].active))
    && (forall w :: w in db.versions && db.versions[w].file != f ==> d.versions[w] == db.versions[w])
    && d.files[f].current == Some(v) && d.files[f] == db.files[f].(current := d.files[f].current)
    && (forall g :: g in db.files && g != f ==> d.files[g] == db.files[g])
  }

  lemma ActivateRows(db: Db, v: Uuid)
    requires v in db.versions && db.versions[v].file in db.files
    ensures BecomesActive(db, UploadRules.Activate(db, v), v)
    ensures var d := UploadRules.Activate(db, v);
      d == db.(files := d.files, versions := d.versions)
  {
  }

  /** The reported chunks of `v` that were not uploaded are so now, under the reported etags; no other row differs. */
  ghost predicate MarksReported(chunks: Chunks, chunks': Chunks, v: Uuid, etags: map<nat, string>, now: Time) {
    && chunks'.Keys == chunks.Keys
    && forall c :: c in chunks ==>
         if c.version == v && c.index in etags && chunks[c].uploaded.None?
         then chunks'[c] == chunks[c].(etag := Some(etags[c.index]), uploaded := Some(now))
         else chunks'[c] == chunks[c]
  }

  /**
   `complete_upload` of an inactive version of a live file: the reports are kept in
   any case, it succeeds exactly when no planned chunk is missing after them, and
   only then does the version become its file's active and current one.
   */
  lemma CompleteUploadRows(db: Db, u: Uuid, v: Uuid, etags: map<nat, string>)
    requires Rules.Inv(db)
    ensures var o := UploadRules.CompleteUpload(db, u, v, etags);
      var mine := && v in db.versions && db.versions[v].file in db.files && db.files[db.versions[v].file].owner == u
                  && db.files[db.versions[v].file].deleted.None?;
      && (!mine ==> o == Outcome(db, Failed(NotFound)))
      && (mine && db.versions[v].active ==> o == Outcome(db, Done))
      && (mine && !db.versions[v].active ==>
            && MarksReported(db.chunks, o.db.chunks, v, etags, db.clock)
            && (o.status == Done <==> forall i: nat :: i < db.versions[v].count ==> IsUploaded(db.chunks, v, i) || i in etags)
            && (o.status != Done ==> o.status == Failed(BadRequest) && o.db == db.(chunks := o.db.chunks))
            && (o.status == Done ==>
                  && BecomesActive(db, o.db, v)
                  && o.db == db.(files := o.db.files, versions := o.db.versions, chunks := o.db.chunks,
                                 completed := db.completed + {v})))
  {
    hide Rules.Inv, UploadRules.MarkReported, UploadRules.MissingChunks, UploadRules.Activate, MarksReported, BecomesActive;
    var marked := UploadRules.MarkReported(db.chunks, v, etags, db.clock);
    var d := db.(chunks := marked);
    ReportedRows(db.chunks, v, etags, db.clock);
    if v in db.versions && db.versions[v].file in db.files {
      PlanCovered(db, v, etags);
      ActivateRows(d, v);
      ActiveFrame(db, d, UploadRules.Activate(d, v), UploadRules.Activate(d, v).(completed := db.completed + {v}), v);
    }
  }

  predicate IsUploaded(chunks: Chunks, v: Uuid, i: nat) {
    ChunkId(v, i) in chunks && chunks[ChunkId(v, i)].uploaded.Some?
  }

  lemma ReportedRows(chunks: Chunks, v: Uuid, etags: map<nat, string>, now: Time)
    ensures MarksReported(chunks, UploadRules.MarkReported(chunks, v, etags, now), v, etags, now)
  {
  }

  lemma PlanCovered(db: Db, v: Uuid, etags: map<nat, string>)
    requires Rules.Inv(db) && v in db.versions
    ensures exists c :: c in db.chunks && c.version == v
    ensures UploadRules.MissingChunks(UploadRules.MarkReported(db.chunks, v, etags, db.clock), v) == {}
       <==> forall i: nat :: i < db.versions[v].count ==> IsUploaded(db.chunks, v, i) || i in etags
  {
    PlanRange(db, v);
    hide Rules.Inv;
    var marked := UploadRules.MarkReported(db.chunks, v, etags, db.clock);
    NothingMissing(marked, v);
    assert ChunkId(v, 0).version == v;
    if Uploaded(marked, v) {
      forall i: nat | i < db.versions[v].count
        ensures IsUploaded(db.chunks, v, i) || i in etags
      {
        assert ChunkId(v, i) in marked && marked[ChunkId(v, i)].uploaded.Some?;
      }
    }
    if forall i: nat :: i < db.versions[v].count ==> IsUploaded(db.chunks, v, i) || i in etags {
      forall c | c in marked && c.version == v
        ensures marked[c].uploaded.Some?
      {
        assert c == ChunkId(v, c.index);
        assert IsUploaded(db.chunks, v, c.index) || c.index in etags;
      }
    }
  }

  lemma PlanRange(db: Db, v: Uuid)
    requires Rules.Inv(db) && v in db.versions
    ensures db.versions[v].count > 0 && forall i: nat :: ChunkId(v, i) in db.chunks <==> i < db.versions[v].count
  {
    assert PlanOk(db.versions, db.chunks, v);
  }

  lemma ActiveFrame(db: Db, d: Db, e: Db, g: Db, v: Uuid)
    requires v in db.versions && db.versions[v].file in db.files && d.versions == db.versions && d.files == db.files
    requires BecomesActive(d, e, v) && g.versions == e.versions && g.files == e.files
    ensures BecomesActive(db, g, v)
  {
  }

  /**
   `verify_chunk` succeeds exactly when the chunk is one of a live file of the
   caller and either is recorded under that etag already, or storage is not
   configured, or its HEAD finds the object; then the row is uploaded under the
   etag. No other row ever differs.
   */
  lemma VerifyChunkRows(db: Db, u: Uuid, v: Uuid, i: nat, etag: string, configured: bool, head: UploadRules.Head)
    ensures var o := UploadRules.VerifyChunk(db, u, v, i, etag, configured, head);
      var c := ChunkId(v, i);
      var mine := && c in db.chunks && v in db.versions && db.versions[v].file in db.files
                  && db.files[db.versions[v].file].owner == u && db.files[db.versions[v].file].deleted.None?;
      && (o.status == Done <==> mine && (db.chunks[c].etag == Some(etag) || !configured || head.Present?))
      && (!mine ==> o.status == Failed(NotFound))
      && (mine && o.status != Done ==> o.status == (if head.Missing? then Failed(BadRequest) else Failed(Unavailable)))
      && (o.status != Done || db.chunks[c].etag == Some(etag) ==> o.db == db)
      && (o.status == Done && db.chunks[c].etag != Some(etag) ==>
            && o.db == db.(chunks := o.db.chunks) && o.db.chunks.Keys == db.chunks.Keys
            && o.db.chunks[c] == db.chunks[c].(etag := Some(etag), uploaded := Some(db.clock))
            && forall b :: b in db.chunks && b != c ==> o.db.chunks[b] == db.chunks[b])
  {
  }

  /** Key, hash and the hash of the files that point at the version; nothing else. */
  lemma SetFileKeyRows(db: Db, v: Uuid, hash: nat)
    ensures var d := UploadRules.SetFileKey(db, v, hash);
      && d == db.(files := d.files, versions := d.versions)
      && d.files.Keys == db.files.Keys && d.versions.Keys == db.versions.Keys
      && (forall w :: w in db.versions && w != v ==> d.versions[w] == db.versions[w])
      && (v in db.versions ==> d.versions[v] == db.versions[v].(keyed := true, hash := hash))
      && (forall f :: f in db.files && (v !in db.versions || db.files[f].current != Some(v)) ==> d.files[f] == db.files[f])
      && (forall f :: f in db.files && v in db.versions && db.files[f].current == Some(v) ==>
            d.files[f] == db.files[f].(hash := hash))
  {
  }

  // ------------------------------------------------------- version calls

  lemma RestoreVersionRows(db: Db, u: Uuid, f: Uuid, v: Uuid)
    ensures var o := UploadRules.RestoreVersion(db, u, f, v);
      var ok := && v in db.versions && db.versions[v].file == f && f in db.files && db.files[f].owner == u
                && db.files[f].deleted.None?;
      && o.status == (if ok then Done else Failed(NotFound))
      && (!ok || db.versions[v].active ==> o.db == db)
      && (ok && !db.versions[v].active ==>
            BecomesActive(db, o.db, v) && o.db == db.(files := o.db.files, versions := o.db.versions))
  {
    hide BecomesActive;
    if v in db.versions && db.versions[v].file in db.files {
      ActivateRows(db, v);
    }
  }

  /** Version `v` and its chunk rows are gone and pointers to it are null; nothing else differs in these tables. */
  ghost predicate DropsVersion(db: Db, d: Db, v: Uuid) {
    && (forall w :: w in d.versions <==> w in db.versions && w != v) && (forall w :: w in d.versions ==> d.versions[w] == db.versions[w])
    && (forall c :: c in d.chunks <==> c in db.chunks && c.version != v) && (forall c :: c in d.chunks ==> d.chunks[c] == db.chunks[c])
    && d.files.Keys == db.files.Keys
    && (forall f :: f in db.files ==>
          d.files[f] == if db.files[f].current == Some(v) then db.files[f].(current := None) else db.files[f])
  }

  lemma DropVersionRows(db: Db, v: Uuid)
    ensures DropsVersion(db, DropVersions(db, {v}), v)
  {
  }

  /** `delete_version` refuses an active version, queues nothing, and takes only objects of the version. */
  lemma DeleteVersionRows(db: Db, u: Uuid, f: Uuid, v: Uuid, removed: set<Key>)
    ensures var o := UploadRules.DeleteVersion(db, u, f, v, removed);
      var mine := && v in db.versions && db.versions[v].file == f && f in db.files && db.files[f].owner == u
                  && db.files[f].deleted.None?;
      && o.status == (if !mine then Failed(NotFound) else if db.versions[v].active then Failed(BadRequest) else Done)
      && (o.status != Done ==> o.db == db)
      && (o.status == Done ==>
            && DropsVersion(db, o.db, v)
            && o.db == db.(files := o.db.files, versions := o.db.versions, chunks := o.db.chunks, objects := o.db.objects)
            && forall k :: k in o.db.objects <==>
                 k in db.objects && !(k in removed && exists c :: c in db.chunks && c.version == v && db.chunks[c].key == k))
  {
    hide DropsVersion;
    DropVersionRows(db, v);
    VersionKeys(db.chunks, v);
    SameDrop(db, UploadRules.DeleteVersion(db, u, f, v, removed).db, v);
    hide KeysOf;
  }

  lemma VersionKeys(chunks: Chunks, v: Uuid)
    ensures forall k :: k in KeysOf(chunks, {v}) <==> exists c :: c in chunks && c.version == v && chunks[c].key == k
  {
  }

  lemma SameDrop(db: Db, d: Db, v: Uuid)
    ensures (d.versions == DropVersions(db, {v}).versions && d.chunks == DropVersions(db, {v}).chunks
             && d.files == DropVersions(db, {v}).files) ==> DropsVersion(db, d, v)
  {
    DropVersionRows(db, v);
  }

  /** `cancel_upload`, also of a trashed file: refuses an active version, and queues the keys of the version. */
  lemma CancelUploadRows(db: Db, u: Uuid, f: Uuid, v: Uuid)
    requires Rules.Inv(db)
    ensures var o := UploadRules.CancelUpload(db, u, f, v);
      var mine := v in db.versions && db.versions[v].file == f && f in db.files && db.files[f].owner == u;
      && o.status == (if !mine then Failed(NotFound) else if db.versions[v].active then Failed(BadRequest) else Done)
      && (o.status != Done ==> o.db == db)
      && (o.status == Done ==>
            && DropsVersion(db, o.db, v) && QueuesLost(db, o.db, u)
            && o.db == db.(files := o.db.files, versions := o.db.versions, chunks := o.db.chunks,
                           pending := o.db.pending, retired := o.db.retired))
  {
    hide Rules.Inv, DropsVersion, QueuesLost, DropVersions, DropFiles, KeysOf;
    if UploadRules.CancelUpload(db, u, f, v).status == Done {
      CancelIsDropAndQueue(db, u, f, v);
      CancelledRows(db, u, v);
    }
  }

  lemma CancelledRows(db: Db, u: Uuid, v: Uuid)
    ensures var d := Enqueue(DropVersions(db, {v}), KeysOf(db.chunks, {v}), u);
      && DropsVersion(db, d, v) && QueuesLost(db, d, u)
      && d == db.(files := d.files, versions := d.versions, chunks := d.chunks, pending := d.pending, retired := d.retired)
  {
    hide QueuesLost, KeysOf, DropsVersion;
    var d := Enqueue(DropVersions(db, {v}), KeysOf(db.chunks, {v}), u);
    SameDrop(db, d, v);
    QueuedKeys(db, {v}, u);
    QueueFrame(db, Enqueue(db, KeysOf(db.chunks, {v}), u).(chunks := WithoutVersions(db.chunks, {v})), d, u);
  }

  // ------------------------------------------------------------ bulk init

  /** The rows of one request are there as it asked. */
  ghost predicate HasUpload(d: Db, u: Uuid, r: UploadRules.InitRequest, now: Time) {
    && r.file in d.files && r.version in d.versions
    && d.files[r.file].owner == u && d.files[r.file].folder == r.folder && d.files[r.file].deleted.None?
    && d.files[r.file].size == r.plan.size && d.files[r.file].current == Some(r.version)
    && d.versions[r.version].file == r.file && d.versions[r.version].size == r.plan.size
    && d.versions[r.version].count == r.plan.count && !d.versions[r.version].active && !d.versions[r.version].keyed
    && d.versions[r.version].created == now
    && forall i: nat :: i < |r.plan.chunks| ==> IsPlanned(d.chunks, u, r.file, r.version, r.plan, i)
  }

  /** Every row of `db` is in `d` unchanged. */
  ghost predicate Extends(db: Db, d: Db) {
    && (forall f :: f in db.files ==> f in d.files && d.files[f] == db.files[f])
    && (forall v :: v in db.versions ==> v in d.versions && d.versions[v] == db.versions[v])
    && (forall c :: c in db.chunks ==> c in d.chunks && d.chunks[c] == db.chunks[c])
    && d == db.(files := d.files, versions := d.versions, chunks := d.chunks, issued := d.issued)
  }

  lemma ExtendedHas(d: Db, e: Db, u: Uuid, r: UploadRules.InitRequest, now: Time)
    requires Extends(d, e) && HasUpload(d, u, r, now)
    ensures HasUpload(e, u, r, now)
  {
    forall i: nat | i < |r.plan.chunks|
      ensures IsPlanned(e.chunks, u, r.file, r.version, r.plan, i)
    {
      assert IsPlanned(d.chunks, u, r.file, r.version, r.plan, i);
    }
  }

  lemma InsertExtends(db: Db, u: Uuid, r: UploadRules.InitRequest)
    requires Accepts(r.plan) && UploadRules.SegmentsOk(r.plan) && r.file !in db.files && r.version !in db.versions
    requires forall c :: c in db.chunks ==> c.version != r.version
    ensures var d := UploadRules.InsertFile(db, u, r.file, r.version, r.folder, r.plan, 0, false);
      Extends(db, d) && HasUpload(d, u, r, db.clock)
  {
    InsertFileRows(db, u, r.file, r.version, r.folder, r.plan, 0, false);
    hide UploadRules.InsertFile, Accepts, UploadRules.SegmentsOk;
  }

  predicate Insertible(db: Db, r: UploadRules.InitRequest) {
    (r.folder.Some? ==> r.folder.value in db.folders) && NoNegativeSegment(r.plan)
  }

  lemma {:induction false} InitAllRows(db: Db, u: Uuid, reqs: seq<UploadRules.InitRequest>)
    requires StoreOk(db) && UploadRules.FreshIds(db, reqs) && (forall r :: r in reqs ==> Accepts(r.plan))
    ensures var o := UploadRules.InitAll(db, u, reqs);
      && (o.Ok? <==> forall r :: r in reqs ==> Insertible(db, r))
      && (o.Ok? ==> && Extends(db, o.value) && o.value.files.Keys == db.files.Keys + (set r | r in reqs :: r.file)
                    && forall r :: r in reqs ==> HasUpload(o.value, u, r, db.clock))
    decreases |reqs|
  {
    hide StoreOk, Accepts, UploadRules.InsertFile, HasUpload, Extends, UploadRules.FreshIds;
    if reqs == [] {
      ExtendsRefl(db);
      assert (set r | r in reqs :: r.file) == {};
    } else {
      var r, rest := reqs[0], reqs[1..];
      assert r in reqs && forall q :: q in reqs <==> q == r || q in rest;
      if Insertible(db, r) {
        var d := UploadRules.InsertFile(db, u, r.file, r.version, r.folder, r.plan, 0, false);
        FirstInsert(db, u, reqs);
        InitAllRows(d, u, rest);
        hide UploadRules.SegmentsOk, NoNegativeSegment;
        if UploadRules.InitAll(d, u, rest).Ok? {
          var e := UploadRules.InitAll(d, u, rest).value;
          ExtendsTrans(db, d, e);
          ExtendedHas(d, e, u, r, db.clock);
          assert (set q | q in reqs :: q.file) == {r.file} + (set q | q in rest :: q.file);
        }
      }
    }
  }

  /** The first insert of a batch, and what the rest starts from. */
  lemma FirstInsert(db: Db, u: Uuid, reqs: seq<UploadRules.InitRequest>)
    requires StoreOk(db) && reqs != [] && UploadRules.FreshIds(db, reqs)
    requires Accepts(reqs[0].plan) && UploadRules.SegmentsOk(reqs[0].plan)
    ensures var r := reqs[0];
      var d := UploadRules.InsertFile(db, u, r.file, r.version, r.folder, r.plan, 0, false);
      && StoreOk(d) && UploadRules.FreshIds(d, reqs[1..]) && Extends(db, d) && HasUpload(d, u, r, db.clock)
      && d.files.Keys == db.files.Keys + {r.file} && d.folders == db.folders && d.clock == db.clock
  {
    hide StoreOk, Accepts, UploadRules.SegmentsOk, UploadRules.InsertFile, HasUpload, Extends;
    var r := reqs[0];
    assert r in reqs;
    FreshRow(db, r.version);
    InsertExtends(db, u, r);
    InsertStore(db, u, r);
    InsertedIds(db, u, r.file, r.version, r.folder, r.plan);
    FreshRest(db, UploadRules.InsertFile(db, u, r.file, r.version, r.folder, r.plan, 0, false), reqs);
  }

  lemma FreshRow(db: Db, v: Uuid)
    requires StoreOk(db) && v !in db.issued
    ensures v !in db.versions && forall c :: c in db.chunks ==> c.version != v
  {
  }

  lemma InsertStore(db: Db, u: Uuid, r: UploadRules.InitRequest)
    requires StoreOk(db) && Accepts(r.plan) && UploadRules.SegmentsOk(r.plan) && r.version !in db.issued && r.file !in db.files
    ensures StoreOk(UploadRules.InsertFile(db, u, r.file, r.version, r.folder, r.plan, 0, false))
  {
    var row := File(u, r.folder, None, r.plan.size, 0, Some(r.version));
    InsertFilePointers(db.files, db.versions, r.file, row, r.version,
                       Version(r.file, r.plan.size, r.plan.count, 0, false, db.clock, false));
    hide StoreOk, Accepts, UploadRules.PlanRows;
    InsertKeepsStore(db, db.files[r.file := row], u, r.file, r.version, r.plan, 0, false);
  }

  lemma ExtendsRefl(db: Db)
    ensures Extends(db, db)
  {
  }

  lemma ExtendsTrans(db: Db, d: Db, e: Db)
    requires Extends(db, d) && Extends(d, e)
    ensures Extends(db, e)
  {
  }

  /** The batch total counts every request once. */
  lemma {:induction false} BulkSizeRows(reqs: seq<UploadRules.InitRequest>, i: nat)
    requires i < |reqs|
    ensures UploadRules.BulkSize(reqs) == UploadRules.BulkSize(reqs[..i] + reqs[i + 1..]) + reqs[i].plan.size
    decreases i
  {
    var less := reqs[..i] + reqs[i + 1..];
    if i == 0 {
      assert less == reqs[1..];
    } else {
      BulkSizeRows(reqs[1..], i - 1);
      assert less[0] == reqs[0] && less[1..] == reqs[1..][..i - 1] + reqs[1..][i..];
    }
  }

  /** A batch of uploads is refused before it writes, or goes in whole, every request with its own rows. */
  lemma BulkInitRows(db: Db, u: Uuid, reqs: seq<UploadRules.InitRequest>, configured: bool)
    requires Rules.Inv(db) && UploadRules.FreshIds(db, reqs)
    ensures var o := UploadRules.BulkInit(db, u, reqs, configured);
      var accepted := (forall r :: r in reqs ==> Accepts(r.plan)) && WrapI64(Usage(db, u) + UploadRules.BulkSize(reqs)) <= QUOTA;
      && (o.status != Done ==> o.db == db)
      && (!accepted ==> o.status == Failed(BadRequest))
      && (accepted && !configured ==> o.status == Failed(Unavailable))
      && (accepted && configured ==>
            (o.status == Done <==>
               forall r :: r in reqs ==> Insertible(db, r)))
      && (o.status == Done ==>
            && Extends(db, o.db) && o.db.files.Keys == db.files.Keys + (set r | r in reqs :: r.file)
            && forall r :: r in reqs ==> HasUpload(o.db, u, r, db.clock))
  {
    hide StoreOk, PointersOk, Rules.Inv, Accepts, HasUpload, Extends, UploadRules.InitAll, UploadRules.FreshIds, Insertible, Usage,
      WrapI64, UploadRules.BulkSize;
    PointersHold(db);
    if forall r :: r in reqs ==> Accepts(r.plan) {
      InitAllRows(db, u, reqs);
    }
  }

  // ------------------------------------------------------- storage workers

  /** One cycle of the retry worker, on the rows. */
  lemma RetryRows(db: Db, picked: set<Key>, answer: Ledger.Answer)
    requires picked <= db.pending.Keys
    ensures var d := Ledger.Retry(db, picked, answer);
      && d == db.(objects := d.objects, pending := d.pending)
      && (forall k :: k in d.objects <==> k in db.objects && k !in answer.removed)
      && (forall k :: k in d.pending <==> k in db.pending && !(answer.DeleteOk? && k in answer.gone))
      && (forall k :: k in d.pending ==>
            && d.pending[k] == db.pending[k].(attempts := d.pending[k].attempts)
            && d.pending[k].attempts == db.pending[k].attempts + if answer.DeleteFailed? && k in picked then 1 else 0)
  {
  }

  /** The sweep selects the keys of the chunks of orphaned versions. */
  lemma SweepSelectRows(db: Db, cutoff: Time)
    ensures var d := Ledger.SweepSelect(db, cutoff);
      && d == db.(sweep := d.sweep) && d.sweep.Some? && d.sweep.value.cutoff == cutoff
      && forall k :: k in d.sweep.value.keys <==>
           exists c :: c in db.chunks && c.version in db.versions && Orphaned(db, cutoff, c.version) && db.chunks[c].key == k
  {
    forall k
      ensures k in KeysOf(db.chunks, Rules.Orphans(db, cutoff)) <==>
                exists c :: c in db.chunks && c.version in db.versions && Orphaned(db, cutoff, c.version) && db.chunks[c].key == k
    {
      if k in KeysOf(db.chunks, Rules.Orphans(db, cutoff)) {
        var c :| c in db.chunks && c.version in Rules.Orphans(db, cutoff) && db.chunks[c].key == k;
        assert Orphaned(db, cutoff, c.version);
      }
    }
  }

  /** And drops the versions that are orphaned then, with their chunks and nothing else. */
  lemma SweepRowsRows(db: Db)
    requires Rules.Inv(db) && db.sweep.Some?
    ensures var d := Ledger.SweepRows(db);
      && d == db.(versions := d.versions, chunks := d.chunks, sweep := None)
      && (forall v :: v in d.versions <==> v in db.versions && !Orphaned(db, db.sweep.value.cutoff, v))
      && (forall v :: v in d.versions ==> d.versions[v] == db.versions[v])
      && (forall c :: c in d.chunks <==> c in db.chunks && c.version in d.versions)
      && (forall c :: c in d.chunks ==> d.chunks[c] == db.chunks[c])
  {
    var cutoff := db.sweep.value.cutoff;
    PointersHold(db);
    RowsHaveVersions(db);
    hide StoreOk, PointersOk, Rules.Inv, WithoutVersions, NullPointers;
    OrphansUnpointed(db, cutoff);
    OrphanChunks(db.versions, db.chunks, Rules.Orphans(db, cutoff));
  }
}

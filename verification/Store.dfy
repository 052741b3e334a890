/**
 Versions, chunks and the deletion queue: their invariants, and the row updates
 the services build their transactions from.
 */
module Store {
  import opened Core
  import opened Schema

  const TAG_BYTES := 17
  const MAX_CHUNKS_PER_FILE := 50_000
  const MAX_FILE_SIZE := 500 * 1024 * 1024 * 1024
  const TWO64 := 0x1_0000_0000_0000_0000

  // ------------------------------------------------------------- invariants

  /**
   Version pointers: a version belongs to a file, an active version is its
   file's current one, and a current pointer names a version of the same file.
   */
  ghost predicate PointersOk(files: Files, versions: Versions) {
    && (forall v :: v in versions ==> versions[v].file in files)
    && (forall v :: v in versions && versions[v].active ==> files[versions[v].file].current == Some(v))
    && (forall f :: f in files && files[f].current.Some? ==>
          files[f].current.value in versions && versions[files[f].current.value].file == f)
  }

  /** So a file never has two active versions. */
  lemma OneActiveVersion(files: Files, versions: Versions, v: Uuid, w: Uuid)
    requires PointersOk(files, versions)
    requires v in versions && w in versions && versions[v].file == versions[w].file
    requires versions[v].active && versions[w].active
    ensures v == w
  {
    assert files[versions[v].file].current == Some(v);
  }

  /** The key a chunk row is stored under. */
  function ChunkKey(files: Files, versions: Versions, c: ChunkId, segment: nat): Key
    requires c.version in versions && versions[c.version].file in files
  {
    var f := versions[c.version].file;
    Key(files[f].owner, f, c.version, segment, c.index)
  }

  /** Sum of the first `n` chunk sizes of a version. */
  ghost function SizeSum(chunks: Chunks, v: Uuid, n: nat): nat
    requires forall i: nat :: i < n ==> ChunkId(v, i) in chunks
  {
    if n == 0 then 0 else SizeSum(chunks, v, n - 1) + chunks[ChunkId(v, n - 1)].size
  }

  /** A total checked in 64-bit arithmetic: right up to a multiple of 2^64. */
  ghost predicate SumOk(sum: nat, expected: nat) {
    exists wraps: nat :: sum == expected + Times64(wraps)
  }

  function Times64(wraps: nat): nat {
    wraps * TWO64
  }

  /** The chunk rows of `v` are exactly its plan: indices 0 to count-1 and the checked total. */
  ghost predicate PlanOk(versions: Versions, chunks: Chunks, v: Uuid)
    requires v in versions
  {
    && 0 < versions[v].count <= MAX_CHUNKS_PER_FILE && versions[v].size <= MAX_FILE_SIZE
    && (forall i: nat :: ChunkId(v, i) in chunks <==> i < versions[v].count)
    && SumOk(SizeSum(chunks, v, versions[v].count), versions[v].size + TAG_BYTES * versions[v].count)
  }

  ghost predicate ChunksOk(files: Files, versions: Versions, chunks: Chunks)
    requires PointersOk(files, versions)
  {
    && (forall c :: c in chunks ==> c.version in versions)
    && (forall c :: c in chunks ==> chunks[c].key == ChunkKey(files, versions, c, chunks[c].segment))
    && (forall c :: c in chunks ==> (chunks[c].etag.Some? <==> chunks[c].uploaded.Some?))
    && (forall v :: v in versions ==> PlanOk(versions, chunks, v))
  }

  /** Keys named by some chunk row. */
  function ChunkKeys(chunks: Chunks): set<Key> {
    set c | c in chunks :: chunks[c].key
  }

  /** Version ids are drawn once; a queued key belongs to a version that is gone. */
  ghost predicate IdsOk(versions: Versions, pending: Queue, issued: set<Uuid>, retired: set<Key>) {
    && versions.Keys <= issued
    && pending.Keys <= retired
    && (forall k :: k in retired ==> k.version in issued && k.version !in versions)
  }

  ghost predicate Uploaded(chunks: Chunks, v: Uuid) {
    forall c :: c in chunks && c.version == v ==> chunks[c].uploaded.Some?
  }

  /** A version that `complete_upload` once activated has every chunk uploaded. */
  ghost predicate CompletedOk(versions: Versions, chunks: Chunks, completed: set<Uuid>, issued: set<Uuid>) {
    && completed <= issued
    && forall v :: v in completed && v in versions ==> Uploaded(chunks, v)
  }

  ghost predicate StoreOk(db: Db) {
    && PointersOk(db.files, db.versions)
    && ChunksOk(db.files, db.versions, db.chunks)
    && IdsOk(db.versions, db.pending, db.issued, db.retired)
    && CompletedOk(db.versions, db.chunks, db.completed, db.issued)
  }

  /** The ledger: every stored object is named by a chunk row or by a queue row. */
  ghost predicate Covered(db: Db) {
    db.objects <= ChunkKeys(db.chunks) + db.pending.Keys
  }

  /** A key ever queued for deletion is never the key of a chunk row. */
  lemma RetiredKeysAreUnnamed(db: Db)
    requires StoreOk(db)
    ensures db.retired !! ChunkKeys(db.chunks)
    ensures db.pending.Keys !! ChunkKeys(db.chunks)
  {
    forall k | k in ChunkKeys(db.chunks)
      ensures k !in db.retired
    {
      var c :| c in db.chunks && db.chunks[c].key == k;
      assert k.version == c.version;
    }
  }

  // --------------------------------------------------- deleting version rows

  /** Rows of the versions in `vs` vanish from the chunk table. */
  function WithoutVersions(chunks: Chunks, vs: set<Uuid>): Chunks {
    map c | c in chunks && c.version !in vs :: chunks[c]
  }

  /** `ON DELETE SET NULL` of the current-version pointer. */
  function NullPointers(files: Files, vs: set<Uuid>): Files {
    map f | f in files ::
      if files[f].current.Some? && files[f].current.value in vs then files[f].(current := None) else files[f]
  }

  /** Deleting versions deletes their chunk rows and nulls pointers to them. */
  function DropVersions(db: Db, vs: set<Uuid>): Db {
    db.(files := NullPointers(db.files, vs),
        versions := db.versions - vs,
        chunks := WithoutVersions(db.chunks, vs))
  }

  function VersionsOf(versions: Versions, fs: set<Uuid>): set<Uuid> {
    set v | v in versions && versions[v].file in fs
  }

  function KeysOf(chunks: Chunks, vs: set<Uuid>): set<Key> {
    set c | c in chunks && c.version in vs :: chunks[c].key
  }

  /** Deleting file rows after (or with, by cascade) their versions. */
  function DropFiles(db: Db, fs: set<Uuid>): Db {
    var d := DropVersions(db, VersionsOf(db.versions, fs));
    d.(files := d.files - fs)
  }

  /** `INSERT INTO pending_storage_deletions ... ON CONFLICT DO NOTHING`. */
  function Enqueue(db: Db, keys: set<Key>, user: Uuid): Db {
    db.(pending := (map k | k in keys :: Pending(user, db.clock, 0)) + db.pending,
        retired := db.retired + keys)
  }

  lemma {:induction false} SizeSumFrame(chunks: Chunks, chunks': Chunks, v: Uuid, n: nat)
    requires forall i: nat :: i < n ==> ChunkId(v, i) in chunks && ChunkId(v, i) in chunks'
    requires forall i: nat :: i < n ==> chunks'[ChunkId(v, i)].size == chunks[ChunkId(v, i)].size
    ensures SizeSum(chunks', v, n) == SizeSum(chunks, v, n)
  {
    if n > 0 {
      SizeSumFrame(chunks, chunks', v, n - 1);
    }
  }

  lemma PlanFrame(versions: Versions, chunks: Chunks, versions': Versions, chunks': Chunks, v: Uuid)
    requires v in versions && PlanOk(versions, chunks, v)
    requires v in versions' && versions'[v].count == versions[v].count && versions'[v].size == versions[v].size
    requires forall i: nat :: ChunkId(v, i) in chunks' <==> ChunkId(v, i) in chunks
    requires forall i: nat :: ChunkId(v, i) in chunks ==> chunks'[ChunkId(v, i)].size == chunks[ChunkId(v, i)].size
    ensures PlanOk(versions', chunks', v)
  {
    SizeSumFrame(chunks, chunks', v, versions[v].count);
  }

  lemma DropVersionsKeepsPointers(files: Files, versions: Versions, vs: set<Uuid>)
    requires PointersOk(files, versions)
    ensures PointersOk(NullPointers(files, vs), versions - vs)
  {
  }

  lemma DropVersionsKeepsPlans(versions: Versions, chunks: Chunks, vs: set<Uuid>)
    requires forall v :: v in versions ==> PlanOk(versions, chunks, v)
    ensures forall v :: v in versions - vs ==> PlanOk(versions - vs, WithoutVersions(chunks, vs), v)
  {
    forall v | v in versions - vs
      ensures PlanOk(versions - vs, WithoutVersions(chunks, vs), v)
    {
      PlanFrame(versions, chunks, versions - vs, WithoutVersions(chunks, vs), v);
    }
  }

  lemma DropVersionsKeepsChunks(files: Files, versions: Versions, chunks: Chunks, vs: set<Uuid>)
    requires PointersOk(files, versions) && ChunksOk(files, versions, chunks)
    ensures PointersOk(NullPointers(files, vs), versions - vs)
    ensures ChunksOk(NullPointers(files, vs), versions - vs, WithoutVersions(chunks, vs))
  {
    DropVersionsKeepsPointers(files, versions, vs);
    DropVersionsKeepsPlans(versions, chunks, vs);
  }

  lemma DropVersionsKeepsStore(db: Db, vs: set<Uuid>)
    requires StoreOk(db)
    ensures StoreOk(DropVersions(db, vs))
  {
    DropVersionsKeepsChunks(db.files, db.versions, db.chunks, vs);
  }

  lemma DropFilesKeepsStore(db: Db, fs: set<Uuid>)
    requires StoreOk(db)
    ensures StoreOk(DropFiles(db, fs))
  {
    var vs := VersionsOf(db.versions, fs);
    DropVersionsKeepsStore(db, vs);
    var d := DropVersions(db, vs);
    var e := DropFiles(db, fs);
    assert PointersOk(e.files, e.versions);
    assert e.versions == d.versions && e.chunks == d.chunks;
    forall c | c in e.chunks
      ensures e.chunks[c].key == ChunkKey(e.files, e.versions, c, e.chunks[c].segment)
    {
      assert d.chunks[c].key == ChunkKey(d.files, d.versions, c, d.chunks[c].segment);
    }
  }

  /** Queuing the keys of versions that are gone. */
  lemma EnqueueKeepsStore(db: Db, keys: set<Key>, user: Uuid)
    requires StoreOk(db)
    requires forall k :: k in keys ==> k.version in db.issued && k.version !in db.versions
    ensures StoreOk(Enqueue(db, keys, user))
  {
  }

  /** Dropping versions and queuing their keys leaves no object unaccounted for. */
  lemma DropAndEnqueueCovers(db: Db, vs: set<Uuid>, d: Db, user: Uuid)
    requires Covered(db)
    requires d.chunks == WithoutVersions(db.chunks, vs)
    requires d.objects == db.objects && d.pending == db.pending
    ensures Covered(Enqueue(d, KeysOf(db.chunks, vs), user))
  {
    var e := Enqueue(d, KeysOf(db.chunks, vs), user);
    forall k | k in e.objects
      ensures k in ChunkKeys(e.chunks) + e.pending.Keys
    {
      if k !in db.pending {
        var c :| c in db.chunks && db.chunks[c].key == k;
        if c.version !in vs {
          assert c in e.chunks && e.chunks[c].key == k;
        }
      }
    }
  }

  /** The keys of dropped versions belong to issued ids that are gone. */
  lemma DroppedKeys(db: Db, vs: set<Uuid>)
    requires StoreOk(db)
    ensures forall k :: k in KeysOf(db.chunks, vs) ==> k.version in db.issued && k.version in vs
  {
  }

  // ----------------------------------------------------- hard_delete_files

  /**
   `hard_delete_files`: chunk, version and file rows go, and the touched keys no
   remaining chunk row names are queued, all in one transaction.
   */
  function HardDelete(db: Db, fs: set<Uuid>, user: Uuid): Db {
    var touched := KeysOf(db.chunks, VersionsOf(db.versions, fs));
    var d := DropFiles(db, fs);
    Enqueue(d, touched - ChunkKeys(d.chunks), user)
  }

  lemma HardDeleteKeepsStore(db: Db, fs: set<Uuid>, user: Uuid)
    requires StoreOk(db)
    ensures StoreOk(HardDelete(db, fs, user))
  {
    var vs := VersionsOf(db.versions, fs);
    DropFilesKeepsStore(db, fs);
    DroppedKeys(db, vs);
    var d := DropFiles(db, fs);
    EnqueueKeepsStore(d, KeysOf(db.chunks, vs) - ChunkKeys(d.chunks), user);
  }

  /** The `NOT EXISTS` filter drops nothing, so every key of a deleted row is queued. */
  lemma HardDeleteQueuesAll(db: Db, fs: set<Uuid>, user: Uuid)
    requires StoreOk(db)
    ensures HardDelete(db, fs, user)
         == Enqueue(DropFiles(db, fs), KeysOf(db.chunks, VersionsOf(db.versions, fs)), user)
  {
    var vs := VersionsOf(db.versions, fs);
    var d := DropFiles(db, fs);
    DropFilesKeepsStore(db, fs);
    DroppedKeys(db, vs);
    forall k | k in KeysOf(db.chunks, vs)
      ensures k !in ChunkKeys(d.chunks)
    {
    }
    assert KeysOf(db.chunks, vs) - ChunkKeys(d.chunks) == KeysOf(db.chunks, vs);
  }

  lemma HardDeleteCovers(db: Db, fs: set<Uuid>, user: Uuid)
    requires StoreOk(db) && Covered(db)
    ensures Covered(HardDelete(db, fs, user))
  {
    HardDeleteQueuesAll(db, fs, user);
    DropAndEnqueueCovers(db, VersionsOf(db.versions, fs), DropFiles(db, fs), user);
  }

  /** A hard delete removes the named file rows and changes no other file row or folder. */
  lemma HardDeleteRows(db: Db, fs: set<Uuid>, user: Uuid)
    requires PointersOk(db.files, db.versions)
    ensures HardDelete(db, fs, user).files == db.files - fs
    ensures HardDelete(db, fs, user).folders == db.folders
    ensures HardDelete(db, fs, user).clock == db.clock
  {
    var vs := VersionsOf(db.versions, fs);
    assert NullPointers(db.files, vs) - fs == db.files - fs;
  }
}

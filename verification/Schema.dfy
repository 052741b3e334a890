/** The tables, one row datatype each, and the object store beside them. */
module Schema {
  import opened Core
  import opened Forest

  /** An object key by its five parts; `ObjectKeys.KeyText` is the printed form. */
  datatype Key = Key(user: Uuid, file: Uuid, version: Uuid, segment: nat, index: nat)

  datatype File = File(owner: Uuid, folder: Option<Uuid>, deleted: Option<Time>, size: nat,
                       hash: nat, current: Option<Uuid>)

  datatype Version = Version(file: Uuid, size: nat, count: nat, hash: nat, active: bool,
                             created: Time, keyed: bool)

  /** `UNIQUE (version_id, chunk_index)` makes this pair the chunk table's key. */
  datatype ChunkId = ChunkId(version: Uuid, index: nat)

  datatype Chunk = Chunk(segment: nat, size: nat, key: Key, etag: Option<string>, uploaded: Option<Time>)

  datatype Pending = Pending(user: Uuid, created: Time, attempts: nat)

  type Files = map<Uuid, File>
  type Versions = map<Uuid, Version>
  type Chunks = map<ChunkId, Chunk>
  type Queue = map<Key, Pending>

  /** The periodic cleanup in progress: its cutoff and the keys it has selected for deletion. */
  datatype Sweep = Sweep(cutoff: Time, keys: set<Key>)

  /**
   All tables, the bucket (`objects`), the clock and the periodic cleanup. The last
   three fields are history: version ids ever drawn, keys ever queued for deletion,
   and versions ever activated by `complete_upload`.
   */
  datatype Db = Db(folders: Folders, files: Files, versions: Versions, chunks: Chunks,
                   pending: Queue, objects: set<Key>, clock: Time, sweep: Option<Sweep>,
                   issued: set<Uuid>, retired: set<Key>, completed: set<Uuid>)

  /** A call's answer and the tables it leaves. */
  datatype Outcome = Outcome(db: Db, status: Status)

  const EmptyDb := Db(map[], map[], map[], map[], map[], {}, 0, None, {}, {}, {})
}

/** The database as the services see it: tables updated in place by SQL statements. */
module Tables {
  import opened Core
  import opened Forest
  import opened FolderWalks
  import opened Schema
  import opened Drive
  import opened Store
  import opened Rules
  import opened TrashLaws

  class Database {
    var folders: Folders
    var files: Files
    var versions: Versions
    var chunks: Chunks
    var pending: Queue
    var objects: set<Key>
    var clock: Time
    var sweep: Option<Sweep>
    ghost var issued: set<Uuid>
    ghost var retired: set<Key>
    ghost var completed: set<Uuid>

    /** The tables as one value. */
    ghost function View(): Db
      reads this
    {
      Db(folders, files, versions, chunks, pending, objects, clock, sweep, issued, retired, completed)
    }

    ghost predicate Valid()
      reads this
    {
      Inv(View())
    }

    constructor ()
      ensures View() == EmptyDb
    {
      folders, files, versions, chunks, pending := map[], map[], map[], map[], map[];
      objects, clock, sweep := {}, 0, None;
      issued, retired, completed := {}, {}, {};
    }

    /** `DELETE FROM file_versions` with its cascade to chunks and SET NULL on the current pointer. */
    method DeleteVersionRows(vs: set<Uuid>)
      modifies this
      ensures View() == DropVersions(old(View()), vs)
    {
      versions := versions - vs;
      chunks := map c | c in chunks && c.version !in vs :: chunks[c];
      files := NullPointers(files, vs);
    }

    /** `DELETE FROM files` with its cascade to versions. */
    method DeleteFileRows(fs: set<Uuid>)
      modifies this
      ensures View() == DropFiles(old(View()), fs)
    {
      DeleteVersionRows(set v | v in versions && versions[v].file in fs);
      files := files - fs;
    }

    /** `DELETE FROM folders` with its cascades to subfolders and files. */
    method DeleteFolderRows(s: set<Uuid>)
      modifies this
      ensures View() == TrashLaws.DeleteFolderRows(old(View()), s)
    {
      var gone := WalkSubtree(folders, s);
      DeleteFileRows(FilesIn(files, gone));
      folders := folders - gone;
    }

    /** `INSERT INTO pending_storage_deletions ... ON CONFLICT (r2_key) DO NOTHING`. */
    method QueueDeletions(keys: set<Key>, user: Uuid)
      modifies this
      ensures View() == Enqueue(old(View()), keys, user)
    {
      pending := (map k | k in keys :: Pending(user, clock, 0)) + pending;
      retired := retired + keys;
    }
  }
}

/**
 `create_folders_bulk` inserts a client-chosen id and parent with no check of its
 own; only the primary key and the foreign key stand in the way.
 */
module BulkFolders {
  import opened Core
  import opened Forest
  import opened Schema
  import opened Drive
  import opened Store
  import opened Rules
  import opened RulesKeep

  datatype NewFolder = NewFolder(id: Uuid, parent: Option<Uuid>)

  /** The inserts in order, up to the first one the database refuses. */
  function InsertAll(fs: Folders, u: Uuid, reqs: seq<NewFolder>): Result<Folders>
    decreases |reqs|
  {
    if reqs == [] then Ok(fs)
    else
      var r := reqs[0];
      if r.id in fs then Err(Conflict)
      else if r.parent.Some? && r.parent.value !in fs && r.parent.value != r.id then Err(BadRequest)
      else InsertAll(fs[r.id := Folder(u, r.parent, None)], u, reqs[1..])
  }

  function CreateFoldersBulk(db: Db, u: Uuid, reqs: seq<NewFolder>): Outcome {
    match InsertAll(db.folders, u, reqs)
    case Err(e) => Outcome(db, Failed(e))
    case Ok(fs) => Outcome(db.(folders := fs), Done)
  }

  /** Each parent passes the check `create_folder` makes, earlier rows of the batch included. */
  predicate GoodParents(fs: Folders, u: Uuid, reqs: seq<NewFolder>)
    decreases |reqs|
  {
    reqs == [] ||
    (GoodParent(fs, u, reqs[0].parent) && GoodParents(fs[reqs[0].id := Folder(u, reqs[0].parent, None)], u, reqs[1..]))
  }

  /** `row` of `fs` breaks the drive invariant whatever else the table holds. */
  ghost predicate BadRow(fs: Folders, x: Uuid) {
    && x in fs && fs[x].parent.Some?
    && var p := fs[x].parent.value;
       p == x || (p in fs && (fs[p].owner != fs[x].owner || !Inside(fs[p].deleted, fs[x].deleted)))
  }

  lemma BadRowBreaks(fs: Folders, files: Files, now: Time, x: Uuid)
    requires BadRow(fs, x)
    ensures !DriveOk(fs, files, now)
  {
    if fs[x].parent == Some(x) {
      SelfParentIsCyclic(fs, x);
    }
  }

  lemma {:induction false} InsertAllKeepsRows(fs: Folders, u: Uuid, reqs: seq<NewFolder>, x: Uuid)
    requires InsertAll(fs, u, reqs).Ok? && x in fs
    ensures x in InsertAll(fs, u, reqs).value && InsertAll(fs, u, reqs).value[x] == fs[x]
    decreases |reqs|
  {
    if reqs != [] {
      InsertAllKeepsRows(fs[reqs[0].id := Folder(u, reqs[0].parent, None)], u, reqs[1..], x);
    }
  }

  /** An accepted batch keeps the drive invariant exactly when every parent would pass the check. */
  lemma {:induction false} InsertAllExact(fs: Folders, files: Files, now: Time, u: Uuid, reqs: seq<NewFolder>)
    requires DriveOk(fs, files, now) && InsertAll(fs, u, reqs).Ok?
    ensures DriveOk(InsertAll(fs, u, reqs).value, files, now) <==> GoodParents(fs, u, reqs)
    decreases |reqs|
  {
    if reqs != [] {
      var r := reqs[0];
      var fs1 := fs[r.id := Folder(u, r.parent, None)];
      InsertFolderExact(fs, files, now, r.id, u, r.parent);
      if GoodParent(fs, u, r.parent) {
        InsertAllExact(fs1, files, now, u, reqs[1..]);
      } else {
        var out := InsertAll(fs, u, reqs).value;
        InsertAllKeepsRows(fs1, u, reqs[1..], r.id);
        if r.parent.value in fs1 {
          InsertAllKeepsRows(fs1, u, reqs[1..], r.parent.value);
        }
        BadRowBreaks(out, files, now, r.id);
      }
    }
  }

  lemma BulkCreateExact(db: Db, u: Uuid, reqs: seq<NewFolder>)
    requires Inv(db) && CreateFoldersBulk(db, u, reqs).status == Done
    ensures Inv(CreateFoldersBulk(db, u, reqs).db) <==> GoodParents(db.folders, u, reqs)
    ensures Covered(db) ==> Covered(CreateFoldersBulk(db, u, reqs).db)
  {
    InsertAllExact(db.folders, db.files, db.clock, u, reqs);
    StoreFrame(db, InsertAll(db.folders, u, reqs).value, db.files);
  }

  /** One accepted request is enough for a cycle: a folder named as its own parent. */
  lemma SelfParentAccepted(u: Uuid, id: Uuid)
    ensures var reqs := [NewFolder(id, Some(id))];
      && CreateFoldersBulk(EmptyDb, u, reqs).status == Done
      && !Acyclic(CreateFoldersBulk(EmptyDb, u, reqs).db.folders)
  {
    var reqs := [NewFolder(id, Some(id))];
    var fs: Folders := map[id := Folder(u, Some(id), None)];
    assert reqs[1..] == [];
    assert InsertAll(EmptyDb.folders[id := Folder(u, Some(id), None)], u, []) == Ok(fs);
    SelfParentIsCyclic(fs, id);
  }
}

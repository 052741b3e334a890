/** Short runs from the empty tables that reach inputs on which a call does less than promised. */
module DriveRuns {
  import opened Core
  import opened Forest
  import opened Schema
  import opened Drive
  import opened Store
  import opened Plans
  import Rules
  import opened RulesKeep
  import opened Sizes
  import BulkFolders
  import UploadRules
  import opened UploadKeep
  import Ledger
  import opened Runs
  import Isolation

  ghost predicate Reached(d: Db) {
    exists steps :: Allowed(EmptyDb, steps) && Run(EmptyDb, steps) == d
  }

  lemma {:induction false} RunThen(db: Db, steps: seq<Step>, step: Step)
    requires Allowed(db, steps) && Enabled(Run(db, steps), step) && Checked(Run(db, steps), step)
    ensures Allowed(db, steps + [step]) && Run(db, steps + [step]) == Next(Run(db, steps), step)
    decreases |steps|
  {
    hide Enabled, Checked, Next;
    var all := steps + [step];
    if steps == [] {
      assert all[0] == step && all[1..] == [];
    } else {
      assert all[0] == steps[0] && all[1..] == steps[1..] + [step];
      RunThen(Next(db, steps[0]), steps[1..], step);
    }
  }

  lemma ReachedThen(d: Db, step: Step)
    requires Reached(d) && Enabled(d, step) && Checked(d, step)
    ensures Reached(Next(d, step))
  {
    hide Enabled, Checked, Next, Allowed, Run;
    var steps :| Allowed(EmptyDb, steps) && Run(EmptyDb, steps) == d;
    RunThen(EmptyDb, steps, step);
  }

  lemma ReachedIsSound(d: Db)
    requires Reached(d)
    ensures Rules.Inv(d)
  {
    hide Rules.Inv, Allowed, Run;
    EmptyOk();
    var steps :| Allowed(EmptyDb, steps) && Run(EmptyDb, steps) == d;
    EveryRun(EmptyDb, steps);
  }

  lemma EmptyReached()
    ensures Reached(EmptyDb)
  {
    assert Allowed(EmptyDb, []) && Run(EmptyDb, []) == EmptyDb;
  }

  // ------------------------------------------------------- one upload begun

  /** A file of two bytes in two chunks. */
  const TwoChunks := Plan(2, 2, [ChunkPlan(0, 0, 18), ChunkPlan(1, 0, 18)])

  const FirstKey := Key(1, 6, 7, 0, 0)
  const SecondKey := Key(1, 6, 7, 0, 1)

  /** User 1 has announced file 6 with version 7; nothing is uploaded. */
  const Begun := Db(map[], map[6 := File(1, None, None, 2, 5, Some(7))],
                    map[7 := Version(6, 2, 2, 5, false, 0, true)],
                    map[ChunkId(7, 0) := Chunk(0, 18, FirstKey, None, None),
                        ChunkId(7, 1) := Chunk(0, 18, SecondKey, None, None)],
                    map[], {}, 0, None, {7}, {}, {})

  lemma TwoChunksAccepted()
    ensures Accepts(TwoChunks) && UploadRules.SegmentsOk(TwoChunks)
  {
    assert TwoChunks.chunks[..1][..0] == [];
    assert PlanSum(TwoChunks.chunks[..1]) == 18;
    assert PlanSum(TwoChunks.chunks) == 36;
  }

  lemma BegunRows()
    requires Accepts(TwoChunks) && UploadRules.SegmentsOk(TwoChunks)
    ensures UploadRules.InsertFile(EmptyDb, 1, 6, 7, None, TwoChunks, 5, true) == Begun
  {
    hide Accepts;
    var rows := UploadRules.PlanRows(1, 6, 7, TwoChunks, 2);
    assert rows.Keys == {ChunkId(7, 0), ChunkId(7, 1)};
    assert EmptyDb.chunks + rows == Begun.chunks;
  }

  lemma NoUsage(db: Db, u: Uuid)
    requires db.files == map[]
    ensures Usage(db, u) == 0
  {
    assert LiveFiles(db, u) == {};
  }

  lemma BegunReached()
    ensures Reached(Begun)
  {
    hide Accepts, UploadRules.SegmentsOk, UploadRules.InsertFile, Usage;
    EmptyReached();
    TwoChunksAccepted();
    BegunRows();
    NoUsage(EmptyDb, 1);
    ReachedThen(EmptyDb, CreateFile(1, 6, 7, None, TwoChunks, 5, None, true, UploadRules.Missing));
  }

  // ------------------------------------------------------------- the inputs

  /** A cancelled upload leaves a file row without any version. */
  lemma CancelLeavesAnEmptyFile()
    ensures Reached(Begun)
    ensures var o := UploadRules.CancelUpload(Begun, 1, 6, 7);
      o.status == Done && o.db.files == map[6 := File(1, None, None, 2, 5, None)] && o.db.versions == map[]
  {
    hide Reached, Rules.Inv, UploadRules.CancelUpload, KeysOf;
    BegunReached();
    ReachedIsSound(Begun);
    CancelAccepted();
    CancelIsDropAndQueue(Begun, 1, 6, 7);
    assert Begun.versions - {7} == map[];
    assert NullPointers(Begun.files, {7}) == map[6 := File(1, None, None, 2, 5, None)];
  }

  lemma CancelAccepted()
    ensures UploadRules.CancelUpload(Begun, 1, 6, 7).status == Done
  {
    hide KeysOf, DropVersions, DropFiles;
  }

  /** A version with nothing uploaded is restored as the active one. */
  lemma RestoreActivatesNothing()
    ensures Reached(Begun) && Ledger.ActiveUploaded(Begun)
    ensures var o := UploadRules.RestoreVersion(Begun, 1, 6, 7);
      o.status == Done && o.db.versions[7].active && !Ledger.ActiveUploaded(o.db)
  {
    BegunReached();
    hide Reached;
    var o := UploadRules.RestoreVersion(Begun, 1, 6, 7);
    assert ChunkId(7, 0) in o.db.chunks && o.db.chunks[ChunkId(7, 0)].uploaded.None?;
  }

  /** Deleting a version whose object the best-effort delete missed. */
  lemma DeleteVersionLosesAnObject()
    ensures var stored := Begun.(objects := {FirstKey});
      var o := UploadRules.DeleteVersion(stored, 1, 6, 7, {});
      Reached(stored) && Covered(stored) && o.status == Done && !Covered(o.db)
  {
    BegunReached();
    hide Reached;
    var stored := Begun.(objects := {FirstKey});
    ReachedThen(Begun, Put(FirstKey));
    assert Next(Begun, Put(FirstKey)) == stored;
    assert Begun.chunks[ChunkId(7, 0)].key in ChunkKeys(stored.chunks);
    var d := UploadRules.DeleteVersion(stored, 1, 6, 7, {}).db;
    assert FirstKey in d.objects && ChunkKeys(d.chunks) == {};
  }

  /** The upload is completed although only the second object arrived. */
  const Done7 := Db(map[], map[6 := File(1, None, None, 2, 5, Some(7))],
                    map[7 := Version(6, 2, 2, 5, true, 0, true)],
                    map[ChunkId(7, 0) := Chunk(0, 18, FirstKey, Some("a"), Some(0)),
                        ChunkId(7, 1) := Chunk(0, 18, SecondKey, Some("b"), Some(0))],
                    map[], {SecondKey}, 0, None, {7}, {}, {7})

  const Etags: map<nat, string> := map[0 := "a", 1 := "b"]

  lemma Done7Reached()
    ensures Reached(Done7) && Covered(Done7)
  {
    hide Reached, UploadRules.CompleteUpload;
    BegunReached();
    var stored := Begun.(objects := {SecondKey});
    ReachedThen(Begun, Put(SecondKey));
    assert Next(Begun, Put(SecondKey)) == stored;
    Completed7(stored);
    ReachedThen(stored, CompleteUpload(1, 7, Etags));
    assert Done7.chunks[ChunkId(7, 1)].key in ChunkKeys(Done7.chunks);
  }

  lemma Completed7(stored: Db)
    requires stored == Begun.(objects := {SecondKey})
    ensures UploadRules.CompleteUpload(stored, 1, 7, Etags).db == Done7
  {
    hide UploadRules.MarkReported, UploadRules.MissingChunks, UploadRules.Activate;
    assert ChunkId(7, 0) in stored.chunks;
    Marked7(stored.chunks);
    Activated7(stored.(chunks := Done7.chunks));
  }

  lemma Marked7(chunks: Chunks)
    requires chunks == Begun.chunks
    ensures UploadRules.MarkReported(chunks, 7, Etags, 0) == Done7.chunks && UploadRules.MissingChunks(Done7.chunks, 7) == {}
  {
  }

  lemma Activated7(d: Db)
    requires d.versions == Begun.versions && d.files == Begun.files
    ensures UploadRules.Activate(d, 7).versions == Done7.versions && UploadRules.Activate(d, 7).files == Done7.files
    ensures UploadRules.Activate(d, 7) == d.(versions := Done7.versions, files := Done7.files)
  {
  }

  /** The same two chunks with a segment the database refuses. */
  const RefusedChunks := Plan(2, 2, [ChunkPlan(0, -1, 18), ChunkPlan(1, 0, 18)])

  /**
   The same content is created again and HEAD truthfully finds no first object:
   the object of the second chunk is lost, whether the call then succeeds or fails.
   */
  lemma GhostDedupLosesAnObject()
    ensures Reached(Done7) && Covered(Done7) && FirstKey !in Done7.objects
    ensures UploadRules.DedupAnswer(Done7, 1, None, 5, Some(6))
    ensures var o := UploadRules.CreateFile(Done7, 1, 8, 9, None, TwoChunks, 5, Some(6), true, UploadRules.Missing);
      o.status == Done && !Covered(o.db)
    ensures var o := UploadRules.CreateFile(Done7, 1, 8, 9, None, RefusedChunks, 5, Some(6), true, UploadRules.Missing);
      o.status == Failed(Internal) && !Covered(o.db)
  {
    hide Reached, Covered, UploadRules.CreateFile, UploadRules.DedupAnswer;
    Done7Reached();
    IsDuplicate6();
    TwoChunksAccepted();
    GhostCase(TwoChunks);
    RefusedAccepted();
    GhostCase(RefusedChunks);
  }

  lemma IsDuplicate6()
    ensures UploadRules.DedupAnswer(Done7, 1, None, 5, Some(6))
  {
  }

  lemma GhostCase(plan: Plan)
    requires Reached(Done7) && Covered(Done7) && Accepts(plan) && plan.size == 2
    ensures var o := UploadRules.CreateFile(Done7, 1, 8, 9, None, plan, 5, Some(6), true, UploadRules.Missing);
      o.status == (if UploadRules.SegmentsOk(plan) then Done else Failed(Internal)) && !Covered(o.db)
  {
    hide Reached, Rules.Inv, Covered, Usage, UploadRules.InsertFile, Accepts, UploadRules.SegmentsOk, KeysOf, DropFiles;
    ReachedIsSound(Done7);
    SmallUsage();
    SecondIsIts();
    Ledger.GhostDedupLedger(Done7, 1, 8, 9, None, plan, 5, Some(6), true, UploadRules.Missing);
    assert Ledger.GhostBranch(Done7, 1, None, plan, Some(6), true, UploadRules.Missing);
    assert SecondKey in Done7.objects;
  }

  lemma SecondIsIts()
    ensures SecondKey in KeysOf(Done7.chunks, VersionsOf(Done7.versions, {6}))
  {
    assert ChunkId(7, 1) in Done7.chunks && 7 in VersionsOf(Done7.versions, {6});
    assert Done7.chunks[ChunkId(7, 1)].key == SecondKey;
  }

  lemma RefusedAccepted()
    ensures Accepts(RefusedChunks) && !UploadRules.SegmentsOk(RefusedChunks)
  {
    assert RefusedChunks.chunks[..1][..0] == [];
    assert PlanSum(RefusedChunks.chunks[..1]) == 18;
    assert PlanSum(RefusedChunks.chunks) == 36;
    assert RefusedChunks.chunks[0].segment < 0;
  }

  lemma SmallUsage()
    ensures Usage(Done7, 1) == 2
  {
    assert LiveFiles(Done7, 1) == {6};
    TotalPick(Done7.files, {6}, 6);
    assert {6} - {6} == {};
  }

  /** User 1 has one folder. */
  const OneFolder := EmptyDb.(folders := map[5 := Folder(1, None, None)])

  /** User 2 starts an upload into the folder of user 1. */
  lemma BulkInitIntoForeignFolder()
    ensures Reached(OneFolder)
    ensures var o := UploadRules.BulkInit(OneFolder, 2, [UploadRules.InitRequest(6, 7, Some(5), TwoChunks)], true);
      o.status == Done && 6 in o.db.files && o.db.files[6].owner == 2 && o.db.files[6].folder == Some(5) && !Rules.Inv(o.db)
  {
    hide Reached, Rules.Inv, Accepts, UploadRules.SegmentsOk, UploadRules.InsertVersion, UploadRules.BulkInit, GoodFolders;
    OneFolderReached();
    ReachedIsSound(OneFolder);
    TwoChunksAccepted();
    var r := UploadRules.InitRequest(6, 7, Some(5), TwoChunks);
    ForeignInit(r);
    ForeignAccepted(r);
    BulkInitExact(OneFolder, 2, [r], true);
    ForeignIsBad(r);
  }

  lemma OneFolderReached()
    ensures Reached(OneFolder)
  {
    hide Reached;
    EmptyReached();
    ReachedThen(EmptyDb, CreateFolder(1, 5, None));
    assert Next(EmptyDb, CreateFolder(1, 5, None)) == OneFolder;
  }

  lemma ForeignIsBad(r: UploadRules.InitRequest)
    requires r.folder == Some(5)
    ensures !GoodFolders(OneFolder.folders, 2, [r])
  {
    assert r in [r] && !GoodParent(OneFolder.folders, 2, r.folder);
  }

  lemma ForeignAccepted(r: UploadRules.InitRequest)
    requires Accepts(r.plan) && UploadRules.BulkSize([r]) == 2 && UploadRules.InitAll(OneFolder, 2, [r]).Ok?
    ensures UploadRules.BulkInit(OneFolder, 2, [r], true) == Outcome(UploadRules.InitAll(OneFolder, 2, [r]).value, Done)
  {
    hide Accepts, Usage, UploadRules.InitAll;
    NoUsage(OneFolder, 2);
    assert WrapI64(2) == 2;
  }

  lemma ForeignInit(r: UploadRules.InitRequest)
    requires r == UploadRules.InitRequest(6, 7, Some(5), TwoChunks) && Accepts(TwoChunks) && UploadRules.SegmentsOk(TwoChunks)
    ensures UploadRules.BulkSize([r]) == 2
    ensures UploadRules.InitAll(OneFolder, 2, [r])
         == Ok(UploadRules.InsertFile(OneFolder, 2, 6, 7, Some(5), TwoChunks, 0, false))
  {
    hide Accepts, UploadRules.SegmentsOk, UploadRules.InsertVersion;
    assert [r][1..] == [];
    var d := UploadRules.InsertFile(OneFolder, 2, 6, 7, Some(5), TwoChunks, 0, false);
    assert UploadRules.InitAll(d, 2, []) == Ok(d);
  }

  /** User 2 changes the metadata of a version of user 1. */
  lemma SetFileKeyOfAnother()
    ensures Reached(Begun) && Isolation.Foreign(Begun.files, Begun.versions, 7, 2)
    ensures var d := UploadRules.SetFileKey(Begun, 7, 0);
      d.files[6].hash == 0 && d.versions[7].hash == 0 && !Isolation.OthersKept(Begun, d, 2)
  {
    hide Reached;
    BegunReached();
    var d := UploadRules.SetFileKey(Begun, 7, 0);
    assert 6 in Isolation.OtherFiles(d.files, 2) && Isolation.OtherFiles(d.files, 2)[6].hash == 0;
    assert 6 in Isolation.OtherFiles(Begun.files, 2) && Isolation.OtherFiles(Begun.files, 2)[6].hash == 5;
  }

  /** A second upload of the same file has begun, some time ago. */
  ghost function SecondBegun(): Db
    requires Accepts(TwoChunks) && UploadRules.SegmentsOk(TwoChunks)
  {
    UploadRules.InsertVersion(Begun, 1, 6, 9, TwoChunks, 8, true).(clock := 5)
  }

  lemma SecondReached()
    requires Accepts(TwoChunks) && UploadRules.SegmentsOk(TwoChunks)
    ensures Reached(SecondBegun())
  {
    hide Reached, Accepts, UploadRules.SegmentsOk, UploadRules.InsertVersion, Usage;
    BegunReached();
    BegunUsage();
    ReachedThen(Begun, CreateVersion(1, 6, 9, TwoChunks, 8, true));
    InsertedClock();
    ReachedThen(UploadRules.InsertVersion(Begun, 1, 6, 9, TwoChunks, 8, true), Tick(5));
  }

  lemma InsertedClock()
    requires Accepts(TwoChunks) && UploadRules.SegmentsOk(TwoChunks)
    ensures UploadRules.InsertVersion(Begun, 1, 6, 9, TwoChunks, 8, true).clock == 0
  {
  }

  lemma BegunUsage()
    ensures Usage(Begun, 1) == 2
  {
    assert LiveFiles(Begun, 1) == {6};
    TotalPick(Begun.files, {6}, 6);
    assert {6} - {6} == {};
  }

  /** The cleanup of user 2 takes that upload away from user 1. */
  lemma CleanupOfAnother()
    ensures Accepts(TwoChunks) && UploadRules.SegmentsOk(TwoChunks) && Reached(SecondBegun())
    ensures 9 in SecondBegun().versions && Isolation.Foreign(SecondBegun().files, SecondBegun().versions, 9, 2)
    ensures !Isolation.OthersKept(SecondBegun(), Rules.Cleanup(SecondBegun(), 2, 1).db, 2)
  {
    hide Reached, Rules.Inv, Isolation.OthersKept, Rules.Cleanup, Accepts, UploadRules.SegmentsOk, UploadRules.PlanRows;
    TwoChunksAccepted();
    SecondReached();
    var d := SecondBegun();
    ReachedIsSound(d);
    assert 9 in Rules.Orphans(d, 1);
    Isolation.CleanupExact(d, 2, 1);
  }

  // ------------------------------------------------------ the periodic sweep

  const NinthKey := Key(1, 6, 9, 0, 0)

  /** The second upload has its first object in the bucket. */
  ghost function SecondStored(): Db
    requires Accepts(TwoChunks) && UploadRules.SegmentsOk(TwoChunks)
  {
    SecondBegun().(objects := {NinthKey})
  }

  lemma SecondStoredFacts()
    requires Accepts(TwoChunks) && UploadRules.SegmentsOk(TwoChunks)
    ensures Reached(SecondStored()) && Covered(SecondStored()) && 9 in Rules.Orphans(SecondStored(), 1)
    ensures ChunkId(9, 0) in SecondStored().chunks && SecondStored().chunks[ChunkId(9, 0)].key == NinthKey
    ensures NinthKey in KeysOf(SecondStored().chunks, Rules.Orphans(SecondStored(), 1))
    ensures SecondStored().sweep.None?
  {
    hide Reached, Covered, Rules.Orphans, KeysOf, SecondBegun, Accepts, UploadRules.SegmentsOk;
    SecondReached();
    var d := SecondStored();
    SecondRow();
    ReachedThen(SecondBegun(), Put(NinthKey));
    assert Next(SecondBegun(), Put(NinthKey)) == d;
    NineFacts(d);
  }

  lemma NineFacts(d: Db)
    requires ChunkId(9, 0) in d.chunks && d.chunks[ChunkId(9, 0)].key == NinthKey && d.objects == {NinthKey}
    requires 9 in d.versions && d.versions[9] == Version(6, 2, 2, 8, false, 0, true) && d.files == Begun.files
    ensures Covered(d) && 9 in Rules.Orphans(d, 1) && NinthKey in KeysOf(d.chunks, Rules.Orphans(d, 1))
  {
    assert d.chunks[ChunkId(9, 0)].key in ChunkKeys(d.chunks);
    assert 9 in Rules.Orphans(d, 1);
    assert ChunkId(9, 0).version in Rules.Orphans(d, 1);
  }

  lemma SecondRow()
    requires Accepts(TwoChunks) && UploadRules.SegmentsOk(TwoChunks)
    ensures var d := SecondBegun();
      && ChunkId(9, 0) in d.chunks && d.chunks[ChunkId(9, 0)].key == NinthKey && d.sweep.None? && d.objects == {}
      && 9 in d.versions && d.versions[9] == Version(6, 2, 2, 8, false, 0, true) && d.files == Begun.files
  {
    hide Accepts;
    assert ChunkId(9, 0) in UploadRules.PlanRows(1, 6, 9, TwoChunks, 2);
  }

  /** The sweep drops the rows of a version whose object storage did not delete. */
  lemma SweepLosesAnObject()
    ensures Accepts(TwoChunks) && UploadRules.SegmentsOk(TwoChunks)
    ensures Reached(SecondStored()) && Covered(SecondStored())
    ensures !Covered(Ledger.SweepRows(Ledger.SweepDelete(Ledger.SweepSelect(SecondStored(), 1), {})))
  {
    hide Reached, Rules.Inv, Covered, Accepts, UploadRules.SegmentsOk, KeysOf, Rules.Orphans, SecondBegun;
    TwoChunksAccepted();
    SecondStoredFacts();
    var d := SecondStored();
    ReachedIsSound(d);
    Ledger.SweepLedger(d, 1, {});
    assert NinthKey in d.objects * KeysOf(d.chunks, Rules.Orphans(d, 1));
  }

  /** The same sweep takes rows away from user 1, who does nothing. */
  lemma SweepTakesARow()
    ensures Accepts(TwoChunks) && UploadRules.SegmentsOk(TwoChunks) && Reached(Ledger.SweepSelect(SecondStored(), 1))
    ensures var a := Ledger.SweepSelect(SecondStored(), 1);
      !Isolation.SameFor(a, Ledger.SweepRows(a), 1)
  {
    hide Reached, Rules.Inv, Covered, Accepts, UploadRules.SegmentsOk, KeysOf, Rules.Orphans, SecondBegun, Isolation.SameFor;
    TwoChunksAccepted();
    SecondStoredFacts();
    SecondRow();
    ReachedThen(SecondStored(), SweepSelect(1));
    var a := Ledger.SweepSelect(SecondStored(), 1);
    ReachedIsSound(a);
    Ledger.SameOrphans(SecondStored(), a, 1);
    assert Isolation.BelongsTo(a, 9, 1);
    Isolation.SweepSparesExact(a, 1);
  }

  /** Selected and its object deleted. */
  ghost function Swept(): Db
    requires Accepts(TwoChunks) && UploadRules.SegmentsOk(TwoChunks)
  {
    Ledger.SweepDelete(Ledger.SweepSelect(SecondStored(), 1), {NinthKey})
  }

  lemma SweptReached()
    requires Accepts(TwoChunks) && UploadRules.SegmentsOk(TwoChunks)
    ensures Reached(Swept()) && Swept().sweep.Some? && NinthKey !in Swept().objects
  {
    hide Reached, Covered, Rules.Orphans, KeysOf, SecondStored, Accepts, UploadRules.SegmentsOk;
    SecondStoredFacts();
    ReachedThen(SecondStored(), SweepSelect(1));
    ReachedThen(Ledger.SweepSelect(SecondStored(), 1), SweepDelete({NinthKey}));
  }

  /** Then restored by its owner, and so passed over by the row deletion. */
  ghost function SweptRestored(): Db
    requires Accepts(TwoChunks) && UploadRules.SegmentsOk(TwoChunks)
  {
    Next(Next(Swept(), RestoreVersion(1, 6, 9)), SweepRows)
  }

  /** Reached: an active version whose chunk row is there and whose object the sweep has taken. */
  lemma SweepTakesRestored()
    ensures Accepts(TwoChunks) && UploadRules.SegmentsOk(TwoChunks)
    ensures Reached(SweptRestored()) && NinthKey in SecondStored().objects
    ensures var d := SweptRestored();
      && 9 in d.versions && d.versions[9].active && 6 in d.files && d.files[6].current == Some(9)
      && ChunkId(9, 0) in d.chunks && d.chunks[ChunkId(9, 0)].key == NinthKey && NinthKey !in d.objects
  {
    hide Reached, Accepts, UploadRules.SegmentsOk, SecondBegun, Rules.Orphans, KeysOf, Next;
    TwoChunksAccepted();
    SweptReached();
    SecondRow();
    var b := Swept();
    Passed(b);
    ReachedThen(b, RestoreVersion(1, 6, 9));
    ReachedThen(Next(b, RestoreVersion(1, 6, 9)), SweepRows);
  }

  lemma Passed(b: Db)
    requires b.sweep.Some? && b.files == Begun.files && 9 in b.versions && b.versions[9] == Version(6, 2, 2, 8, false, 0, true)
    requires ChunkId(9, 0) in b.chunks
    ensures Next(b, RestoreVersion(1, 6, 9)).sweep.Some?
    ensures var d := Next(Next(b, RestoreVersion(1, 6, 9)), SweepRows);
      && 9 in d.versions && d.versions[9].active && 6 in d.files && d.files[6].current == Some(9)
      && ChunkId(9, 0) in d.chunks && d.chunks[ChunkId(9, 0)] == b.chunks[ChunkId(9, 0)] && d.objects == b.objects
  {
    var c := Next(b, RestoreVersion(1, 6, 9));
    assert c.versions[9].active && c.files[6].current == Some(9);
    assert 9 !in Rules.Orphans(c, b.sweep.value.cutoff);
  }

  // -------------------------------------------------- checked, then written

  /** User 1 has two folders side by side. */
  const TwoFolders := EmptyDb.(folders := map[5 := Folder(1, None, None), 6 := Folder(1, None, None)])

  /**
   Two moves pass their checks on the same tables, then both write: each folder
   is now inside the other. The second check no longer passes when it writes.
   */
  lemma CrossedMovesMakeACycle()
    ensures Reached(TwoFolders)
    ensures Rules.MoveFolder(TwoFolders, 1, 5, Some(6)).status == Done
    ensures Rules.MoveFolder(TwoFolders, 1, 6, Some(5)).status == Done
    ensures var d := Rules.MoveWrite(TwoFolders, 1, 5, Some(6)).db;
      !Acyclic(Rules.MoveWrite(d, 1, 6, Some(5)).db.folders)
  {
    hide Reached, Rules.Inv, Rules.MoveFolder;
    TwoFoldersReached();
    ReachedIsSound(TwoFolders);
    SideBySide(5, 6);
    SideBySide(6, 5);
    var d := Rules.MoveWrite(TwoFolders, 1, 5, Some(6)).db;
    Crossed(Rules.MoveWrite(d, 1, 6, Some(5)).db.folders);
  }

  lemma TwoFoldersReached()
    ensures Reached(TwoFolders)
  {
    hide Reached;
    OneFolderReached();
    ReachedThen(OneFolder, CreateFolder(1, 6, None));
    assert Next(OneFolder, CreateFolder(1, 6, None)) == TwoFolders;
  }

  lemma SideBySide(x: Uuid, y: Uuid)
    requires Rules.Inv(TwoFolders) && x in {5, 6} && y in {5, 6} && x != y
    ensures Rules.MoveFolder(TwoFolders, 1, x, Some(y)).status == Done
  {
    hide Rules.Inv;
    MoveRefusesExactlyCycles(TwoFolders, 1, x, y);
    OnChainTop(TwoFolders.folders, x, y);
  }

  lemma Crossed(fs: Folders)
    requires fs == map[5 := Folder(1, Some(6), None), 6 := Folder(1, Some(5), None)]
    ensures !Acyclic(fs)
  {
    assert forall rank: map<Uuid, nat> :: IsRank(fs, rank) ==> fs[5].parent.value == 6 && fs[6].parent.value == 5;
  }

  /** User 1 has a file and a folder, and has just trashed the folder. */
  const Trashed := Begun.(folders := map[5 := Folder(1, None, Some(0))])

  /** A move into that folder, checked before it was trashed, leaves a live file in the trash. */
  lemma MoveIntoTrash()
    ensures var before := Begun.(folders := map[5 := Folder(1, None, None)]);
      Reached(before) && Rules.MoveFile(before, 1, 6, Some(5)).status == Done
    ensures Reached(Trashed)
    ensures var o := Rules.MoveFileWrite(Trashed, 1, 6, Some(5));
      o.status == Done && o.db.files[6].deleted.None? && !Rules.Inv(o.db)
  {
    hide Reached, Rules.Inv;
    BegunReached();
    var before := Begun.(folders := map[5 := Folder(1, None, None)]);
    ReachedThen(Begun, CreateFolder(1, 5, None));
    assert Next(Begun, CreateFolder(1, 5, None)) == before;
    TrashedNext(before);
    ReachedThen(before, TrashFolder(1, 5));
    ReachedIsSound(Trashed);
    MoveFileWriteExact(Trashed, 1, 6, Some(5));
  }

  lemma TrashedNext(before: Db)
    requires before == Begun.(folders := map[5 := Folder(1, None, None)])
    ensures Next(before, TrashFolder(1, 5)) == Trashed
  {
    OnChainSelf(before.folders, 5);
    assert 5 in Subtree(before.folders, {5});
    assert FilesIn(before.files, Subtree(before.folders, {5})) == {};
    assert StampFolders(before.folders, Subtree(before.folders, {5}), 0) == Trashed.folders;
    assert StampFiles(before.files, {}, 0) == Trashed.files;
  }
}

/**
 Resumable uploads: after any sequence of chunk reports the rows hold the union
 of what was reported, resume info is its exact complement, and completion
 succeeds exactly when the union covers the plan.
 */
module Resume {
  import opened Core
  import opened Schema
  import opened Store
  import opened Plans
  import opened Rules
  import opened RulesKeep
  import opened UploadRules
  import opened UploadKeep

  /** One call of the client about version `v`, at clock `now`. */
  datatype Report =
    | Verify(now: Time, index: nat, etag: string, configured: bool, head: Head)
    | Complete(now: Time, etags: map<nat, string>)

  function Apply(db: Db, u: Uuid, v: Uuid, r: Report): Outcome {
    var d := db.(clock := r.now);
    match r
    case Verify(_, i, etag, configured, head) => VerifyChunk(d, u, v, i, etag, configured, head)
    case Complete(_, etags) => CompleteUpload(d, u, v, etags)
  }

  /** Chunk indices of the plan of `v`. */
  function PlanIndices(chunks: Chunks, v: Uuid): set<nat> {
    set c | c in chunks && c.version == v :: c.index
  }

  /** What a call reports: the verified chunk if it succeeds, or the listed chunks of the plan. */
  function Reported(db: Db, u: Uuid, v: Uuid, r: Report): set<nat> {
    match r
    case Verify(_, i, _, _, _) => if Apply(db, u, v, r).status == Done then {i} else {}
    case Complete(_, etags) => etags.Keys * PlanIndices(db.chunks, v)
  }

  function ApplyAll(db: Db, u: Uuid, v: Uuid, rs: seq<Report>): Db
    decreases |rs|
  {
    if rs == [] then db else ApplyAll(Apply(db, u, v, rs[0]).db, u, v, rs[1..])
  }

  function ReportedAll(db: Db, u: Uuid, v: Uuid, rs: seq<Report>): set<nat>
    decreases |rs|
  {
    if rs == [] then {}
    else Reported(db, u, v, rs[0]) + ReportedAll(Apply(db, u, v, rs[0]).db, u, v, rs[1..])
  }

  ghost predicate ClockForward(now: Time, rs: seq<Report>) {
    && (rs != [] ==> now <= rs[0].now)
    && forall i :: 0 < i < |rs| ==> rs[i - 1].now <= rs[i].now
  }

  /** `v` is a version of a live file of `u`, and active only if completely uploaded. */
  ghost predicate Uploading(db: Db, u: Uuid, v: Uuid) {
    && Inv(db) && OwnsLiveVersion(db, u, v)
    && (db.versions[v].active ==> MissingChunks(db.chunks, v) == {})
  }

  lemma MarkedSets(chunks: Chunks, v: Uuid, etags: map<nat, string>, now: Time)
    ensures var d := MarkReported(chunks, v, etags, now);
      && UploadedChunks(d, v) == UploadedChunks(chunks, v) + etags.Keys * PlanIndices(chunks, v)
      && PlanIndices(d, v) == PlanIndices(chunks, v)
  {
    var d := MarkReported(chunks, v, etags, now);
    forall i | i in UploadedChunks(chunks, v) + etags.Keys * PlanIndices(chunks, v)
      ensures i in UploadedChunks(d, v)
    {
      var c :| c in chunks && c.version == v && c.index == i && (chunks[c].uploaded.Some? || i in etags);
      assert c in d && d[c].uploaded.Some?;
    }
    forall i | i in PlanIndices(chunks, v)
      ensures i in PlanIndices(d, v)
    {
      var c :| c in chunks && c.version == v && c.index == i;
      assert c in d;
    }
  }

  lemma VerifiedSets(chunks: Chunks, v: Uuid, i: nat, etag: string, now: Time)
    requires ChunkId(v, i) in chunks
    ensures var d := chunks[ChunkId(v, i) := chunks[ChunkId(v, i)].(etag := Some(etag), uploaded := Some(now))];
      && UploadedChunks(d, v) == UploadedChunks(chunks, v) + {i}
      && PlanIndices(d, v) == PlanIndices(chunks, v)
  {
    var d := chunks[ChunkId(v, i) := chunks[ChunkId(v, i)].(etag := Some(etag), uploaded := Some(now))];
    forall j
      ensures j in UploadedChunks(d, v) <==> j in UploadedChunks(chunks, v) + {i}
      ensures j in PlanIndices(d, v) <==> j in PlanIndices(chunks, v)
    {
      assert j in UploadedChunks(d, v) <==> ChunkId(v, j) in d && d[ChunkId(v, j)].uploaded.Some?;
      assert j in UploadedChunks(chunks, v) <==> ChunkId(v, j) in chunks && chunks[ChunkId(v, j)].uploaded.Some?;
      assert j in PlanIndices(d, v) <==> ChunkId(v, j) in d;
      assert j in PlanIndices(chunks, v) <==> ChunkId(v, j) in chunks;
    }
  }

  /** Uploaded and missing split the plan. */
  lemma UploadedOrMissing(chunks: Chunks, v: Uuid)
    ensures UploadedChunks(chunks, v) + MissingChunks(chunks, v) == PlanIndices(chunks, v)
    ensures UploadedChunks(chunks, v) !! MissingChunks(chunks, v)
  {
    forall i
      ensures i in UploadedChunks(chunks, v) <==> ChunkId(v, i) in chunks && chunks[ChunkId(v, i)].uploaded.Some?
      ensures i in MissingChunks(chunks, v) <==> ChunkId(v, i) in chunks && chunks[ChunkId(v, i)].uploaded.None?
      ensures i in PlanIndices(chunks, v) <==> ChunkId(v, i) in chunks
    {
    }
  }

  /** The plan of an existing version is 0 to count-1. */
  lemma PlanIsRange(db: Db, v: Uuid)
    requires Inv(db) && v in db.versions
    ensures forall i: nat :: i in PlanIndices(db.chunks, v) <==> i < db.versions[v].count
    ensures PlanIndices(db.chunks, v) != {} && ChunkId(v, 0) in db.chunks
  {
    assert PlanOk(db.versions, db.chunks, v);
    forall i: nat
      ensures i in PlanIndices(db.chunks, v) <==> i < db.versions[v].count
    {
      assert ChunkId(v, i) in db.chunks <==> i < db.versions[v].count;
      if i in PlanIndices(db.chunks, v) {
        var c :| c in db.chunks && c.version == v && c.index == i;
        assert c == ChunkId(v, i);
      }
      if ChunkId(v, i) in db.chunks {
        assert ChunkId(v, i).index in PlanIndices(db.chunks, v);
      }
    }
    assert 0 in PlanIndices(db.chunks, v);
  }

  lemma EtagMeansUploaded(db: Db, v: Uuid, i: nat)
    requires Inv(db) && ChunkId(v, i) in db.chunks && db.chunks[ChunkId(v, i)].etag.Some?
    ensures i in UploadedChunks(db.chunks, v)
  {
    assert ChunkId(v, i).index in UploadedChunks(db.chunks, v);
  }

  lemma VerifyStep(db: Db, u: Uuid, v: Uuid, r: Report)
    requires r.Verify? && Uploading(db, u, v) && db.clock <= r.now
    ensures var d := Apply(db, u, v, r).db;
      && Uploading(d, u, v)
      && UploadedChunks(d.chunks, v) == UploadedChunks(db.chunks, v) + Reported(db, u, v, r)
      && PlanIndices(d.chunks, v) == PlanIndices(db.chunks, v)
  {
    hide Inv, UploadedChunks, MissingChunks, PlanIndices;
    var e := db.(clock := r.now);
    Ticked(db, r.now);
    VerifyChunkKeeps(e, u, v, r.index, r.etag, r.configured, r.head);
    var d := Apply(db, u, v, r).db;
    var c := ChunkId(v, r.index);
    if Apply(db, u, v, r).status == Done {
      if db.chunks[c].etag == Some(r.etag) {
        EtagMeansUploaded(db, v, r.index);
      } else {
        VerifiedSets(db.chunks, v, r.index, r.etag, r.now);
      }
    }
    UploadedOrMissing(db.chunks, v);
    UploadedOrMissing(d.chunks, v);
  }

  lemma Ticked(db: Db, now: Time)
    requires Inv(db) && db.clock <= now
    ensures Inv(db.(clock := now))
  {
    hide ChunksOk, PointersOk;
  }

  lemma CompleteStep(db: Db, u: Uuid, v: Uuid, r: Report)
    requires r.Complete? && Uploading(db, u, v) && db.clock <= r.now
    ensures var d := Apply(db, u, v, r).db;
      && Uploading(d, u, v)
      && UploadedChunks(d.chunks, v) == UploadedChunks(db.chunks, v) + Reported(db, u, v, r)
      && PlanIndices(d.chunks, v) == PlanIndices(db.chunks, v)
      && (Apply(db, u, v, r).status == Done <==>
            PlanIndices(db.chunks, v) <= UploadedChunks(db.chunks, v) + Reported(db, u, v, r))
  {
    hide Inv, MarkReported, PlanIndices, UploadedChunks, MissingChunks;
    var e := db.(clock := r.now);
    var marked := MarkReported(db.chunks, v, r.etags, r.now);
    Ticked(db, r.now);
    CompleteUploadKeeps(e, u, v, r.etags);
    PlanIsRange(db, v);
    MarkedSets(db.chunks, v, r.etags, r.now);
    UploadedOrMissing(db.chunks, v);
    UploadedOrMissing(marked, v);
    assert ChunkId(v, 0).version == v && ChunkId(v, 0) in db.chunks;
  }

  /**
   Order does not matter: after any sequence of reports the uploaded set is the
   initial one plus the union of what succeeded, within the plan.
   */
  lemma {:induction false} ReportsAddUp(db: Db, u: Uuid, v: Uuid, rs: seq<Report>)
    requires Uploading(db, u, v) && ClockForward(db.clock, rs)
    ensures var d := ApplyAll(db, u, v, rs);
      && Uploading(d, u, v)
      && UploadedChunks(d.chunks, v) == UploadedChunks(db.chunks, v) + ReportedAll(db, u, v, rs)
      && PlanIndices(d.chunks, v) == PlanIndices(db.chunks, v)
      && (rs == [] ==> d == db) && (rs != [] ==> d.clock == rs[|rs| - 1].now)
    decreases |rs|
  {
    hide Inv, UploadedChunks, PlanIndices, MissingChunks, VerifyChunk, CompleteUpload, OwnsLiveVersion;
    if rs != [] {
      ApplySetsClock(db, u, v, rs[0]);
      if rs[0].Verify? {
        VerifyStep(db, u, v, rs[0]);
      } else {
        CompleteStep(db, u, v, rs[0]);
      }
      ReportsAddUp(Apply(db, u, v, rs[0]).db, u, v, rs[1..]);
    }
  }

  lemma ApplySetsClock(db: Db, u: Uuid, v: Uuid, r: Report)
    ensures Apply(db, u, v, r).db.clock == r.now
  {
  }

  /**
   From a fresh upload: after any reports, a completion succeeds exactly when
   everything reported, its own list included, covers chunks 0 to count-1.
   */
  lemma CompletesWhenCovered(db: Db, u: Uuid, v: Uuid, rs: seq<Report>, now: Time, etags: map<nat, string>)
    requires Inv(db) && OwnsLiveVersion(db, u, v) && !db.versions[v].active
    requires UploadedChunks(db.chunks, v) == {}
    requires ClockForward(db.clock, rs) && ApplyAll(db, u, v, rs).clock <= now
    ensures Apply(ApplyAll(db, u, v, rs), u, v, Complete(now, etags)).status == Done <==>
              forall i: nat :: i < db.versions[v].count ==> i in ReportedAll(db, u, v, rs) || i in etags
  {
    hide Inv, UploadedChunks, PlanIndices, MissingChunks, CompleteUpload, ReportedAll;
    ReportsAddUp(db, u, v, rs);
    var d := ApplyAll(db, u, v, rs);
    CompleteStep(d, u, v, Complete(now, etags));
    PlanIsRange(db, v);
    CoversRange(PlanIndices(db.chunks, v), db.versions[v].count, ReportedAll(db, u, v, rs), etags);
  }

  lemma CoversRange(plan: set<nat>, count: nat, reported: set<nat>, etags: map<nat, string>)
    requires forall i: nat :: i in plan <==> i < count
    ensures plan <= reported + etags.Keys * plan <==> forall i: nat :: i < count ==> i in reported || i in etags
  {
    if forall i: nat :: i < count ==> i in reported || i in etags {
      assert forall i :: i in plan ==> i in reported + etags.Keys * plan;
    }
    if plan <= reported + etags.Keys * plan {
      forall i: nat | i < count
        ensures i in reported || i in etags
      {
        assert i in plan;
      }
    }
  }
}

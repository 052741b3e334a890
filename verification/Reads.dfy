/** The calls that only read: resume info, the download manifest and the share check. */
module Reads {
  import opened Core
  import opened Forest
  import opened FolderWalks
  import opened Schema
  import opened Drive
  import opened Store
  import opened Plans
  import opened Rules
  import opened UploadRules
  import opened Resume

  // --------------------------------------------------- ORDER BY chunk_index

  ghost predicate Ascending(q: seq<nat>) {
    forall i, j :: 0 <= i < j < |q| ==> q[i] < q[j]
  }

  method LeastOf(s: set<nat>) returns (m: nat)
    requires s != {}
    ensures m in s && forall i :: i in s ==> m <= i
  {
    m :| m in s;
    var rest := s - {m};
    while rest != {}
      invariant m in s && rest <= s
      invariant forall i :: i in s && i !in rest ==> m <= i
      decreases rest
    {
      var i :| i in rest;
      if i < m {
        m := i;
      }
      rest := rest - {i};
    }
  }

  method SortIndices(s: set<nat>) returns (q: seq<nat>)
    ensures Ascending(q)
    ensures forall i :: i in q <==> i in s
  {
    q := [];
    var rest := s;
    while rest != {}
      invariant rest <= s && Ascending(q)
      invariant forall i :: i in q <==> i in s && i !in rest
      invariant forall i, j :: i in q && j in rest ==> i < j
      decreases rest
    {
      var m := LeastOf(rest);
      assert forall i :: 0 <= i < |q| ==> q[i] in q;
      q := q + [m];
      rest := rest - {m};
    }
  }

  lemma {:induction false} AscendingFloor(q: seq<nat>, i: nat)
    requires Ascending(q) && i < |q|
    ensures i <= q[i]
    decreases i
  {
    if i > 0 {
      AscendingFloor(q, i - 1);
    }
  }

  lemma {:induction false} AscendingAt(q: seq<nat>, n: nat, i: nat)
    requires Ascending(q) && i < n && forall j: nat :: j in q <==> j < n
    ensures i < |q| && q[i] == i
    decreases i
  {
    assert i in q;
    var p :| 0 <= p < |q| && q[p] == i;
    AscendingFloor(q, p);
    if p < i {
      AscendingAt(q, n, p);
    }
  }

  /** An ascending list of exactly 0 to n-1 has each number at its own place. */
  lemma AscendingRange(q: seq<nat>, n: nat)
    requires n > 0 && Ascending(q) && forall i: nat :: i in q <==> i < n
    ensures |q| == n && forall i :: 0 <= i < n ==> q[i] == i
  {
    forall i: nat | i < n
      ensures i < |q| && q[i] == i
    {
      AscendingAt(q, n, i);
    }
    AscendingAt(q, n, n - 1);
    assert q[|q| - 1] in q;
    AscendingFloor(q, |q| - 1);
  }

  // ----------------------------------------------------------- resume info

  /** A presigned upload, by the key it is for. */
  datatype UploadUrl = UploadUrl(index: nat, segment: nat, key: Key)

  /** The loop over the missing chunks: each row's segment and key. */
  method UploadUrls(chunks: Chunks, v: Uuid, order: seq<nat>) returns (urls: seq<UploadUrl>)
    requires forall i :: 0 <= i < |order| ==> ChunkId(v, order[i]) in chunks
    ensures |urls| == |order|
    ensures forall i :: 0 <= i < |order| ==> var c := chunks[ChunkId(v, order[i])];
              urls[i] == UploadUrl(order[i], c.segment, c.key)
  {
    urls := [];
    for n := 0 to |order|
      invariant |urls| == n
      invariant forall i :: 0 <= i < n ==> var c := chunks[ChunkId(v, order[i])];
                  urls[i] == UploadUrl(order[i], c.segment, c.key)
    {
      var c := chunks[ChunkId(v, order[n])];
      urls := urls + [UploadUrl(order[n], c.segment, c.key)];
    }
  }

  lemma UploadedRows(chunks: Chunks, v: Uuid)
    ensures forall i :: i in UploadedChunks(chunks, v) <==> ChunkId(v, i) in chunks && chunks[ChunkId(v, i)].uploaded.Some?
  {
    forall i: nat | ChunkId(v, i) in chunks && chunks[ChunkId(v, i)].uploaded.Some?
      ensures i in UploadedChunks(chunks, v)
    {
      assert ChunkId(v, i).index == i;
    }
  }

  /**
   `get_resume_info`: the uploaded indices, exactly the missing ones, and with
   storage configured one upload URL for each missing chunk under its own key, all
   in order.
   */
  method ResumeInfo(db: Db, u: Uuid, v: Uuid, configured: bool)
    returns (r: Status, uploaded: seq<nat>, missing: seq<nat>, urls: Option<seq<UploadUrl>>)
    requires Inv(db)
    ensures r == if && v in db.versions && db.versions[v].file in db.files && db.files[db.versions[v].file].owner == u
                    && db.files[db.versions[v].file].deleted.None?
                 then Done else Failed(NotFound)
    ensures r == Done ==>
      && Ascending(uploaded) && Ascending(missing)
      && (forall i :: i in uploaded <==> ChunkId(v, i) in db.chunks && db.chunks[ChunkId(v, i)].uploaded.Some?)
      && (forall i: nat :: i in missing <==> i < db.versions[v].count && i !in uploaded)
    ensures r == Done ==> (urls.Some? <==> configured)
    ensures r == Done && configured ==>
      && |urls.value| == |missing|
      && forall i :: 0 <= i < |missing| ==>
           && ChunkId(v, missing[i]) in db.chunks
           && var segment := db.chunks[ChunkId(v, missing[i])].segment;
              urls.value[i] == UploadUrl(missing[i], segment,
                                         Key(u, db.versions[v].file, v, segment, missing[i]))
  {
    hide Inv;
    uploaded, missing, urls := [], [], None;
    if v !in db.versions || db.versions[v].file !in db.files || db.files[db.versions[v].file].owner != u
       || db.files[db.versions[v].file].deleted.Some? {
      return Failed(NotFound), uploaded, missing, urls;
    }
    PlanIsRange(db, v);
    UploadedOrMissing(db.chunks, v);
    UploadedRows(db.chunks, v);
    VersionRows(db, v);
    uploaded := SortIndices(set c | c in db.chunks && c.version == v && db.chunks[c].uploaded.Some? :: c.index);
    missing := SortIndices(set c | c in db.chunks && c.version == v && db.chunks[c].uploaded.None? :: c.index);
    hide UploadedChunks, MissingChunks, PlanIndices;
    r := Done;
    assert forall i :: 0 <= i < |missing| ==> missing[i] in missing;
    if configured {
      var list := UploadUrls(db.chunks, v, missing);
      urls := Some(list);
    }
  }

  // -------------------------------------------------------------- manifest

  datatype ManifestRow = ManifestRow(index: nat, segment: nat, size: nat, key: Key)

  /** `generate_download_urls`: one entry per chunk row, in the order given. */
  method ManifestRows(chunks: Chunks, v: Uuid, order: seq<nat>) returns (rows: seq<ManifestRow>)
    requires forall i :: i in order ==> ChunkId(v, i) in chunks
    ensures |rows| == |order|
    ensures forall i :: 0 <= i < |order| ==> order[i] in order && var c := chunks[ChunkId(v, order[i])];
              rows[i] == ManifestRow(order[i], c.segment, c.size, c.key)
  {
    rows := [];
    for n := 0 to |order|
      invariant |rows| == n
      invariant forall i :: 0 <= i < n ==> order[i] in order && var c := chunks[ChunkId(v, order[i])];
                  rows[i] == ManifestRow(order[i], c.segment, c.size, c.key)
    {
      var c := chunks[ChunkId(v, order[n])];
      rows := rows + [ManifestRow(order[n], c.segment, c.size, c.key)];
    }
  }

  /** `get_download_manifest`: chunks 0 to count-1 in order with the keys of their rows. */
  method DownloadManifest(db: Db, u: Uuid, f: Uuid, version: Option<Uuid>, configured: bool)
    returns (r: Status, rows: seq<ManifestRow>)
    requires Inv(db)
    ensures r == Done <==>
      && f in db.files && db.files[f].owner == u && configured
      && (version.Some? ==> && version.value in db.versions && db.versions[version.value].file in db.files
                            && db.files[db.versions[version.value].file].owner == u && db.versions[version.value].keyed)
      && (version.None? ==> && db.files[f].current.Some? && db.files[f].current.value in db.versions
                            && db.versions[db.files[f].current.value].keyed)
    ensures r == Done ==> var v := if version.Some? then version.value else db.files[f].current.value;
      && |rows| == db.versions[v].count
      && forall i: nat :: i < |rows| ==>
           && ChunkId(v, i) in db.chunks
           && rows[i] == ManifestRow(i, db.chunks[ChunkId(v, i)].segment, db.chunks[ChunkId(v, i)].size,
                                     Key(db.files[db.versions[v].file].owner, db.versions[v].file, v,
                                         db.chunks[ChunkId(v, i)].segment, i))
  {
    rows := [];
    if f !in db.files || db.files[f].owner != u {
      return Failed(NotFound), rows;
    }
    var v: Uuid;
    if version.Some? {
      v := version.value;
      if v !in db.versions || db.versions[v].file !in db.files || db.files[db.versions[v].file].owner != u {
        return Failed(NotFound), rows;
      }
    } else {
      if db.files[f].current.None? {
        return Failed(BadRequest), rows;
      }
      v := db.files[f].current.value;
    }
    if !configured {
      return Failed(Unavailable), rows;
    }
    if !db.versions[v].keyed {
      return Failed(BadRequest), rows;
    }
    var indices := set c | c in db.chunks && c.version == v :: c.index;
    VersionRows(db, v);
    hide Inv;
    assert indices == PlanIndices(db.chunks, v);
    var order := SortIndices(indices);
    AscendingRange(order, db.versions[v].count);
    rows := ManifestRows(db.chunks, v, order);
    r := Done;
  }

  lemma VersionRows(db: Db, v: Uuid)
    requires Inv(db) && v in db.versions
    ensures db.versions[v].count > 0 && db.versions[v].file in db.files
    ensures forall i: nat :: i in PlanIndices(db.chunks, v) <==> i < db.versions[v].count
    ensures forall i: nat :: i < db.versions[v].count ==>
              && ChunkId(v, i) in db.chunks
              && db.chunks[ChunkId(v, i)].key == Key(db.files[db.versions[v].file].owner, db.versions[v].file, v,
                                                     db.chunks[ChunkId(v, i)].segment, i)
  {
    PlanIsRange(db, v);
    assert PlanOk(db.versions, db.chunks, v);
  }

  lemma {:induction false} SizeSumBound(chunks: Chunks, v: Uuid, n: nat, bound: nat)
    requires forall i: nat :: i < n ==> ChunkId(v, i) in chunks && chunks[ChunkId(v, i)].size <= bound
    ensures SizeSum(chunks, v, n) <= bound * n
    decreases n
  {
    if n > 0 {
      SizeSumBound(chunks, v, n - 1, bound);
      assert bound * (n - 1) + bound == bound * n;
    }
  }

  /**
   As long as a version exists, its chunk sizes add up to the announced total plus
   17 bytes a chunk exactly when their sum fits in an `i64`; small chunks suffice.
   */
  lemma ManifestTotal(db: Db, v: Uuid)
    requires Inv(db) && v in db.versions
    ensures PlanOk(db.versions, db.chunks, v)
    ensures var n := db.versions[v].count;
      && (SizeSum(db.chunks, v, n) == db.versions[v].size + TAG_BYTES * n <==> SizeSum(db.chunks, v, n) < TWO63)
      && ((forall i: nat :: i < n ==> db.chunks[ChunkId(v, i)].size <= MAX_FILE_SIZE + TAG_BYTES) ==>
            SizeSum(db.chunks, v, n) == db.versions[v].size + TAG_BYTES * n)
  {
    hide Inv, SizeSum;
    PlanHolds(db, v);
    var n := db.versions[v].count;
    var wraps: nat :| SizeSum(db.chunks, v, n) == db.versions[v].size + TAG_BYTES * n + Times64(wraps);
    if forall i: nat :: i < n ==> db.chunks[ChunkId(v, i)].size <= MAX_FILE_SIZE + TAG_BYTES {
      SizeSumBound(db.chunks, v, n, MAX_FILE_SIZE + TAG_BYTES);
      assert (MAX_FILE_SIZE + TAG_BYTES) * n <= (MAX_FILE_SIZE + TAG_BYTES) * MAX_CHUNKS_PER_FILE;
    }
  }

  lemma PlanHolds(db: Db, v: Uuid)
    requires Inv(db) && v in db.versions
    ensures PlanOk(db.versions, db.chunks, v)
  {
  }

  /** A version `complete_upload` activated once has every chunk of its plan uploaded for good. */
  lemma CompletedMeansUploaded(db: Db, v: Uuid)
    requires Inv(db) && v in db.completed && v in db.versions
    ensures forall i: nat :: i < db.versions[v].count ==> i in UploadedChunks(db.chunks, v)
  {
    PlanIsRange(db, v);
    UploadedOrMissing(db.chunks, v);
    assert Uploaded(db.chunks, v);
    hide Inv, UploadedChunks, PlanIndices;
    assert MissingChunks(db.chunks, v) == {};
  }

  // ---------------------------------------------------------------- shares

  datatype Share = Share(item: Uuid, isFile: bool, revoked: bool, expires: Option<Time>, restricted: bool)

  /**
   `verify_file_in_shared_folder`: an open folder share serves exactly the live
   files that have the shared folder on their plain parent chain, although the
   query climbs live rows only.
   */
  method VerifyFileInShare(db: Db, share: Option<Share>, f: Uuid, authenticated: bool) returns (r: Status)
    requires Inv(db)
    ensures r == Done ==>
      && share.Some? && !share.value.revoked && (share.value.expires.Some? ==> db.clock < share.value.expires.value)
      && (share.value.restricted ==> authenticated)
    ensures (&& share.Some? && !share.value.revoked && (share.value.expires.Some? ==> db.clock < share.value.expires.value)
             && (share.value.restricted ==> authenticated)) ==>
      if share.value.isFile then r == Done <==> share.value.item == f
      else (r == Done <==> && f in db.files && db.files[f].deleted.None? && db.files[f].folder.Some?
                           && OnChain(db.folders, share.value.item, db.files[f].folder.value))
  {
    if share.None? || share.value.revoked || (share.value.expires.Some? && share.value.expires.value <= db.clock) {
      return Failed(NotFound);
    }
    if share.value.restricted && !authenticated {
      return Failed(Unauthorized);
    }
    if share.value.isFile {
      return if share.value.item == f then Done else Failed(NotFound);
    }
    if f !in db.files || db.files[f].deleted.Some? {
      return Failed(NotFound);
    }
    if db.files[f].folder.None? {
      return Failed(Internal);
    }
    var x := db.files[f].folder.value;
    OnChainSelf(db.folders, x);
    if x == share.value.item {
      return Done;
    }
    AcyclicFrame(db.folders, Live(db.folders));
    LiveChain(db.folders, db.files, x);
    var found := ClimbsTo(Live(db.folders), x, share.value.item);
    r := if found then Done else Failed(NotFound);
    if OnChain(db.folders, share.value.item, x) {
      ghost var n: nat :| Up(db.folders, x, n) == Some(share.value.item);
      UpInTable(db.folders, x, n);
    }
  }
}

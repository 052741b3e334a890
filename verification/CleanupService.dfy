/** The retry worker and the batched object delete, as loops. */
module CleanupService {
  import opened Core
  import opened Schema
  import opened Store
  import opened Rules
  import opened Tables
  import opened UploadRules
  import Ledger

  // ------------------------------------------------------- batched deletes

  const DELETE_BATCH := 1000

  function Concat(batches: seq<seq<Key>>): seq<Key> {
    if batches == [] then [] else Concat(batches[..|batches| - 1]) + batches[|batches| - 1]
  }

  lemma ConcatSnoc(batches: seq<seq<Key>>, b: seq<Key>)
    ensures Concat(batches + [b]) == Concat(batches) + b
  {
    assert (batches + [b])[..|batches|] == batches;
  }

  /**
   `delete_objects`: requests of at most 1000 keys until one is refused. Success
   has submitted every key exactly once, in order; failure submitted a prefix.
   */
  method DeleteObjects(keys: seq<Key>, answers: nat -> bool) returns (ok: bool, batches: seq<seq<Key>>)
    ensures forall b :: b in batches ==> 0 < |b| <= 1000
    ensures Concat(batches) <= keys
    ensures ok ==> Concat(batches) == keys && forall i :: 0 <= i < |batches| ==> answers(i)
    ensures !ok ==> |batches| > 0 && !answers(|batches| - 1)
    ensures ok <==> forall i: nat :: i * 1000 < |keys| ==> answers(i)
  {
    batches := [];
    var sent := 0;
    while sent < |keys|
      invariant 0 <= sent <= |keys| && Concat(batches) == keys[..sent]
      invariant sent < |keys| ==> sent == |batches| * DELETE_BATCH
      invariant sent == |keys| ==> |keys| <= |batches| * DELETE_BATCH
      invariant forall b :: b in batches ==> 0 < |b| <= DELETE_BATCH
      invariant forall i :: 0 <= i < |batches| ==> answers(i)
      decreases |keys| - sent
    {
      var end := if sent + DELETE_BATCH <= |keys| then sent + DELETE_BATCH else |keys|;
      var batch := keys[sent..end];
      var answered := answers(|batches|);
      ConcatSnoc(batches, batch);
      assert keys[..sent] + batch == keys[..end];
      batches := batches + [batch];
      sent := end;
      if !answered {
        assert (|batches| - 1) * DELETE_BATCH < |keys|;
        return false, batches;
      }
    }
    assert keys[..|keys|] == keys;
    ok := true;
  }

  // ---------------------------------------------------------- retry worker

  /** `SELECT r2_key ... ORDER BY created_at LIMIT n`. */
  method SelectOldest(pending: Queue, limit: nat) returns (keys: seq<Key>)
    ensures |keys| == Ledger.Min(limit, |pending|)
    ensures forall i, j :: 0 <= i < j < |keys| ==> keys[i] != keys[j]
    ensures forall k :: k in keys ==> k in pending
    ensures forall a, b :: a in keys && b in pending && b !in keys ==> pending[a].created <= pending[b].created
  {
    keys := [];
    var rest := pending.Keys;
    while |keys| < limit && rest != {}
      invariant rest <= pending.Keys && |keys| <= limit
      invariant |keys| + |rest| == |pending|
      invariant forall k :: k in pending ==> (k in keys <==> k !in rest)
      invariant forall k :: k in keys ==> k in pending
      invariant forall i, j :: 0 <= i < j < |keys| ==> keys[i] != keys[j]
      invariant forall a, b :: a in keys && b in rest ==> pending[a].created <= pending[b].created
      decreases rest
    {
      var k := OldestOf(pending, rest);
      assert forall i :: 0 <= i < |keys| ==> keys[i] in keys;
      keys := keys + [k];
      rest := rest - {k};
    }
  }

  method OldestOf(pending: Queue, rows: set<Key>) returns (k: Key)
    requires rows != {} && rows <= pending.Keys
    ensures k in rows && forall b :: b in rows ==> pending[k].created <= pending[b].created
  {
    k :| k in rows;
    var rest := rows - {k};
    while rest != {}
      invariant k in rows && rest <= rows
      invariant forall b :: b in rows && b !in rest ==> pending[k].created <= pending[b].created
      decreases rest
    {
      var b :| b in rest;
      if pending[b].created < pending[k].created {
        k := b;
      }
      rest := rest - {b};
    }
  }

  /** The HEAD loop: keys whose object is reported absent. */
  method GoneKeys(keys: seq<Key>, heads: Key -> Head) returns (gone: set<Key>)
    ensures gone == set k | k in keys && heads(k).Missing?
  {
    gone := {};
    for i := 0 to |keys|
      invariant gone == set k | k in keys[..i] && heads(k).Missing?
    {
      if heads(keys[i]).Missing? {
        gone := gone + {keys[i]};
      }
      assert keys[..i + 1] == keys[..i] + [keys[i]];
    }
    assert keys[..|keys|] == keys;
  }

  lemma {:induction false} DistinctSize(keys: seq<Key>)
    requires forall i, j :: 0 <= i < j < |keys| ==> keys[i] != keys[j]
    ensures |set k | k in keys| == |keys|
  {
    if keys == [] {
      assert (set k | k in keys) == {};
    } else {
      var last := keys[|keys| - 1];
      var init := keys[..|keys| - 1];
      DistinctSize(init);
      assert keys == init + [last];
      assert (set k | k in keys) == (set k | k in init) + {last};
      assert last !in (set k | k in init);
    }
  }

  /**
   `retry_pending_storage_deletions`: `deleteOk` and `removed` are what the delete
   answered and took from the bucket, `heads` what each HEAD answers.
   */
  method RetryPendingDeletions(db: Database, configured: bool, deleteOk: bool, removed: set<Key>, heads: Key -> Head)
    returns (ghost picked: set<Key>)
    modifies db
    ensures !configured ==> db.View() == old(db.View())
    ensures configured ==>
      && Ledger.OldestBatch(old(db.pending), picked)
      && db.View() == Ledger.Retry(old(db.View()), picked,
           if deleteOk then Ledger.DeleteOk(removed * picked, set k | k in picked && heads(k).Missing?)
           else Ledger.DeleteFailed(removed * picked))
  {
    picked := {};
    if !configured {
      return;
    }
    var keys := SelectOldest(db.pending, Ledger.BATCH);
    var batch := set k | k in keys;
    picked := batch;
    DistinctSize(keys);
    db.objects := db.objects - removed * batch;
    if !deleteOk {
      db.pending := map k | k in db.pending ::
        if k in batch then db.pending[k].(attempts := db.pending[k].attempts + 1) else db.pending[k];
      return;
    }
    var gone := GoneKeys(keys, heads);
    assert gone == set k | k in batch && heads(k).Missing?;
    db.pending := db.pending - gone;
  }

  /**
   `CleanupService::cleanup_orphaned_versions`, run alone: select the keys, delete
   objects (`removed` is what storage took), then delete the rows.
   */
  method SweepOrphans(db: Database, cutoff: Time, removed: set<Key>)
    requires db.Valid() && db.sweep.None?
    modifies db
    ensures db.Valid()
    ensures var keys := KeysOf(old(db.chunks), Orphans(old(db.View()), cutoff));
      db.View() == Ledger.SweepRows(Ledger.SweepDelete(Ledger.SweepSelect(old(db.View()), cutoff), removed * keys))
  {
    ghost var before := db.View();
    hide Inv, KeysOf;
    var orphans := set v | v in db.versions && !db.versions[v].active && db.versions[v].created < cutoff
                           && forall f :: f in db.files ==> db.files[f].current != Some(v);
    assert orphans == Orphans(before, cutoff);
    var keys := KeysOf(db.chunks, orphans);
    db.sweep := Some(Sweep(cutoff, keys));
    db.objects := db.objects - removed * keys;
    Ledger.SweepFieldKeeps(before, db.sweep, db.objects);
    ghost var mid := db.View();
    Ledger.SameOrphans(before, mid, cutoff);
    Ledger.SweepRowsLedger(mid);
    hide Orphans;
    var doomed := set v | v in db.versions && !db.versions[v].active && db.versions[v].created < cutoff
                          && forall f :: f in db.files ==> db.files[f].current != Some(v);
    assert doomed == orphans;
    db.DeleteVersionRows(doomed);
    db.sweep := None;
  }

  /** With truthful HEADs one call of the worker keeps the invariant and the ledger. */
  method RetryCycle(db: Database, deleteOk: bool, removed: set<Key>, heads: Key -> Head)
    requires db.Valid() && Covered(db.View())
    requires forall k :: k in db.pending && heads(k).Missing? ==> k !in db.objects - removed
    modifies db
    ensures db.Valid() && Covered(db.View())
    ensures old(db.objects) * ChunkKeys(old(db.chunks)) <= db.objects
  {
    ghost var before := db.View();
    hide Inv, Covered;
    ghost var picked := RetryPendingDeletions(db, true, deleteOk, removed, heads);
    ghost var answer := if deleteOk then Ledger.DeleteOk(removed * picked, set k | k in picked && heads(k).Missing?)
                        else Ledger.DeleteFailed(removed * picked);
    Ledger.RetryKeeps(before, picked, answer);
    Ledger.RetrySparesChunks(before, picked, answer);
  }
}

/** `syncAllSignatures`: deliver every pending record, one at a time, and
    record each outcome in the store. The network call `syncSignature`, which
    never throws, and the clock are supplied by an `Oracle`. */
module Sync {
  import opened Records
  import opened Store

  /** `CONFIG.MAX_RETRY_ATTEMPTS`. The batch never consults it: a record is
      retried however many attempts it has (see `RetryLimitIgnored`). */
  const MaxRetryAttempts := 3

  /** `part` occurs in `s` starting at position `i`. */
  predicate OccursAt(s: string, part: string, i: int) {
    0 <= i && i + |part| <= |s| && s[i..i + |part|] == part
  }

  /** `s.includes(part)`, searching from the left. */
  function Includes(s: string, part: string): (r: bool)
    ensures r <==> exists i :: OccursAt(s, part, i)
    decreases |s|
  {
    if |s| < |part| then false
    else if s[..|part|] == part then
      assert OccursAt(s, part, 0);
      true
    else
      var r := Includes(s[1..], part);
      assert r ==> exists i :: OccursAt(s, part, i) by {
        if r {
          var i :| OccursAt(s[1..], part, i);
          assert s[i + 1..i + 1 + |part|] == s[1..][i..i + |part|];
          assert OccursAt(s, part, i + 1);
        }
      }
      assert (exists i :: OccursAt(s, part, i)) ==> r by {
        if exists i :: OccursAt(s, part, i) {
          var i :| OccursAt(s, part, i);
          assert i != 0;
          assert s[1..][i - 1..i - 1 + |part|] == s[i..i + |part|];
          assert OccursAt(s[1..], part, i - 1);
        }
      }
      r
  }

  /** The endpoint counts as configured unless it is empty or still holds the
      `YOUR_GOOGLE...` placeholder. */
  predicate Configured(url: string) {
    url != "" && !Includes(url, "YOUR_GOOGLE")
  }

  /** The placeholder URL of the template is refused. */
  lemma PlaceholderNotConfigured(prefix: string, suffix: string)
    ensures !Configured(prefix + "YOUR_GOOGLE" + suffix)
  {
    var url := prefix + "YOUR_GOOGLE" + suffix;
    assert url[|prefix|..|prefix| + |"YOUR_GOOGLE"|] == "YOUR_GOOGLE";
    assert OccursAt(url, "YOUR_GOOGLE", |prefix|);
  }

  /** What the environment decides for the attempt at position `i` of the
      batch: whether `syncSignature` resolved `true` (remote `success`),
      whether the following `updateSignature` rejects (its request's
      `onerror`), and the time `new Date().toISOString()` reads. */
  datatype Oracle = Oracle(delivered: nat -> bool, writeFails: nat -> bool, now: nat -> string)

  /** How `syncAllSignatures` ends: one of its early returns, or a finished
      batch with its two counters. */
  datatype SyncOutcome =
    | Offline
    | NotConfigured
    | PendingReadFailed
    | NothingPending
    | Finished(successCount: nat, failCount: nat)

  /** The patch the attempt at position `i` writes for the snapshot record `s`. */
  function AttemptPatch(s: Stored, i: nat, o: Oracle): Patch {
    if o.delivered(i) then DeliveredPatch(o.now(i)) else RejectedPatch(s.record.syncAttempts + 1)
  }

  /** The store's records after the attempt at position `i` for `s`. */
  function Attempt(m: map<int, SignatureRecord>, s: Stored, i: nat, o: Oracle): map<int, SignatureRecord> {
    if s.id !in m || o.writeFails(i) then m
    else m[s.id := Assign(m[s.id], AttemptPatch(s, i, o))]
  }

  /** The store's records after attempting every record of `snapshot` in order. */
  function Batch(m: map<int, SignatureRecord>, snapshot: seq<Stored>, o: Oracle): map<int, SignatureRecord>
    decreases |snapshot|
  {
    if snapshot == [] then m
    else Attempt(Batch(m, snapshot[..|snapshot| - 1], o), snapshot[|snapshot| - 1], |snapshot| - 1, o)
  }

  /** The number of the first `n` attempts that were delivered and recorded. */
  function Successes(o: Oracle, n: nat): (k: nat)
    ensures k <= n
  {
    if n == 0 then 0
    else Successes(o, n - 1) + (if o.delivered(n - 1) && !o.writeFails(n - 1) then 1 else 0)
  }

  /** The keys of `s`, in order: the records `syncSignature` is called for. */
  function IdsOf(s: seq<Stored>): seq<int> {
    seq(|s|, i requires 0 <= i < |s| => s[i].id)
  }

  /** `snapshot` was read from `m`: each entry is the stored record under its
      key, and no key occurs twice. */
  predicate IsSnapshotOf(snapshot: seq<Stored>, m: map<int, SignatureRecord>) {
    && (forall j :: 0 <= j < |snapshot| ==> snapshot[j].id in m && m[snapshot[j].id] == snapshot[j].record)
    && (forall j, k :: 0 <= j < k < |snapshot| ==> snapshot[j].id != snapshot[k].id)
  }

  /** The record an attempt leaves behind, given the record it started from. */
  function AttemptResult(r: SignatureRecord, i: nat, o: Oracle): SignatureRecord {
    if o.writeFails(i) then r
    else if o.delivered(i) then r.(synced := true, syncedAt := Some(o.now(i)))
    else r.(syncAttempts := r.syncAttempts + 1)
  }

  /** A batch neither adds nor removes records. */
  lemma {:induction false} BatchKeys(m: map<int, SignatureRecord>, snapshot: seq<Stored>, o: Oracle)
    ensures Batch(m, snapshot, o).Keys == m.Keys
    decreases |snapshot|
  {
    if snapshot != [] {
      BatchKeys(m, snapshot[..|snapshot| - 1], o);
    }
  }

  /** A record whose key is not in the snapshot is left as it was. */
  lemma {:induction false} BatchOutside(m: map<int, SignatureRecord>, snapshot: seq<Stored>, o: Oracle, id: int)
    requires id in m
    requires forall j :: 0 <= j < |snapshot| ==> snapshot[j].id != id
    ensures id in Batch(m, snapshot, o) && Batch(m, snapshot, o)[id] == m[id]
    decreases |snapshot|
  {
    if snapshot != [] {
      BatchOutside(m, snapshot[..|snapshot| - 1], o, id);
    }
  }

  lemma SnapshotPrefix(snapshot: seq<Stored>, m: map<int, SignatureRecord>, n: nat)
    requires IsSnapshotOf(snapshot, m) && n <= |snapshot|
    ensures IsSnapshotOf(snapshot[..n], m)
  {
  }

  /** The record at position `j` of the snapshot ends the batch as its own
      attempt left it: delivered ones are synced and stamped, rejected ones
      have one more attempt, and a failed write leaves it as it was. */
  lemma {:induction false} BatchAt(m: map<int, SignatureRecord>, snapshot: seq<Stored>, o: Oracle, j: nat)
    requires IsSnapshotOf(snapshot, m)
    requires j < |snapshot|
    ensures snapshot[j].id in Batch(m, snapshot, o)
    ensures Batch(m, snapshot, o)[snapshot[j].id] == AttemptResult(m[snapshot[j].id], j, o)
    decreases |snapshot|
  {
    var n := |snapshot| - 1;
    var init, last := snapshot[..n], snapshot[n];
    SnapshotPrefix(snapshot, m, n);
    var id := snapshot[j].id;
    if j == n {
      BatchOutside(m, init, o, id);
      var r := m[id];
      assert last.record == r;
      if !o.writeFails(n) {
        if o.delivered(n) {
          DeliveredPatchEffect(r, o.now(n));
        } else {
          RejectedPatchEffect(r, r.syncAttempts + 1);
        }
      }
    } else {
      BatchAt(m, init, o, j);
      assert last.id != id;
    }
  }

  lemma BatchStep(m: map<int, SignatureRecord>, snapshot: seq<Stored>, i: nat, o: Oracle)
    requires i < |snapshot|
    ensures Batch(m, snapshot[..i + 1], o) == Attempt(Batch(m, snapshot[..i], o), snapshot[i], i, o)
  {
    assert snapshot[..i + 1][..i] == snapshot[..i];
  }

  /** No record goes from synced back to unsynced, whatever the snapshot. */
  lemma {:induction false} BatchNeverUnsyncs(m: map<int, SignatureRecord>, snapshot: seq<Stored>, o: Oracle, id: int)
    requires id in m && m[id].synced
    ensures id in Batch(m, snapshot, o) && Batch(m, snapshot, o)[id].synced
    decreases |snapshot|
  {
    if snapshot != [] {
      BatchNeverUnsyncs(m, snapshot[..|snapshot| - 1], o, id);
    }
  }

  /** Over a snapshot read from the store, `syncAttempts` never decreases and
      `synced` never reverts, for every record. */
  lemma BatchMonotone(m: map<int, SignatureRecord>, snapshot: seq<Stored>, o: Oracle, id: int)
    requires IsSnapshotOf(snapshot, m)
    requires id in m
    ensures id in Batch(m, snapshot, o)
    ensures Batch(m, snapshot, o)[id].syncAttempts >= m[id].syncAttempts
    ensures m[id].synced ==> Batch(m, snapshot, o)[id].synced
  {
    if j :| 0 <= j < |snapshot| && snapshot[j].id == id {
      BatchAt(m, snapshot, o, j);
    } else {
      BatchOutside(m, snapshot, o, id);
    }
  }

  /** The snapshot `syncAllSignatures` walks: the unsynced records, in key
      order. It is `Pending` of the listing `SignatureStore.All()` names,
      stated on the store's two fields so that lemmas can use it. */
  function PendingSnapshot(m: map<int, SignatureRecord>, nextKey: int): seq<Stored> {
    Pending(InKeyOrder(m, 1, nextKey))
  }

  /** The pending snapshot is read from the store, holds only unsynced
      records, and lists them in strictly ascending key order. */
  lemma PendingSnapshotRead(m: map<int, SignatureRecord>, nextKey: int)
    ensures var snapshot := PendingSnapshot(m, nextKey);
      && IsSnapshotOf(snapshot, m)
      && StrictlyAscending(snapshot)
      && (forall j :: 0 <= j < |snapshot| ==> !snapshot[j].record.synced)
  {
    var all := InKeyOrder(m, 1, nextKey);
    var snapshot := PendingSnapshot(m, nextKey);
    WithSyncedMembers(all, false);
    WithSyncedAscending(all, false);
    forall j | 0 <= j < |snapshot|
      ensures snapshot[j].id in m && m[snapshot[j].id] == snapshot[j].record && !snapshot[j].record.synced
    {
      assert snapshot[j] in all;
    }
  }

  /** Every unsynced record is in the pending snapshot, whatever its
      `syncAttempts`. */
  lemma PendingSnapshotCovers(m: map<int, SignatureRecord>, nextKey: int, id: int)
    requires forall k :: k in m ==> 1 <= k < nextKey
    requires id in m && !m[id].synced
    ensures exists j :: 0 <= j < |PendingSnapshot(m, nextKey)| && PendingSnapshot(m, nextKey)[j] == Stored(id, m[id])
  {
    var all := InKeyOrder(m, 1, nextKey);
    var x := Stored(id, m[id]);
    InKeyOrderCovers(m, 1, nextKey, id);
    WithSyncedMembers(all, false);
    var p := WithSynced(all, false);
    assert x in p;
    var j :| 0 <= j < |p| && p[j] == x;
    assert PendingSnapshot(m, nextKey)[j] == x;
  }

  /** The batch calls `syncSignature` once for every unsynced record and for
      no other, never twice for the same key. */
  lemma EachPendingAttemptedOnce(m: map<int, SignatureRecord>, nextKey: int)
    requires forall k :: k in m ==> 1 <= k < nextKey
    ensures var ids := IdsOf(PendingSnapshot(m, nextKey));
      && (forall id :: id in ids <==> id in m && !m[id].synced)
      && (forall j, k :: 0 <= j < k < |ids| ==> ids[j] != ids[k])
  {
    var snapshot := PendingSnapshot(m, nextKey);
    var ids := IdsOf(snapshot);
    PendingSnapshotRead(m, nextKey);
    forall id ensures id in ids <==> id in m && !m[id].synced {
      if id in ids {
        var j :| 0 <= j < |ids| && ids[j] == id;
        assert snapshot[j].id == id;
      }
      if id in m && !m[id].synced {
        PendingSnapshotCovers(m, nextKey, id);
        var j :| 0 <= j < |snapshot| && snapshot[j] == Stored(id, m[id]);
        assert ids[j] == id;
      }
    }
  }

  /** A record is retried even when its attempts have reached
      `MaxRetryAttempts`. */
  lemma RetryLimitIgnored(m: map<int, SignatureRecord>, nextKey: int, id: int)
    requires forall k :: k in m ==> 1 <= k < nextKey
    requires id in m && !m[id].synced && m[id].syncAttempts >= MaxRetryAttempts
    ensures Stored(id, m[id]) in PendingSnapshot(m, nextKey)
  {
    PendingSnapshotCovers(m, nextKey, id);
  }

  lemma AllSyncedLeavesNothingPending(m: map<int, SignatureRecord>, nextKey: int)
    requires forall id :: id in m ==> m[id].synced
    ensures PendingSnapshot(m, nextKey) == []
  {
    PendingEmptyIff(InKeyOrder(m, 1, nextKey));
  }

  /** When every attempt is delivered and recorded, the queue is drained: no
      record is pending afterwards and every attempt counts as a success. */
  lemma AllDeliveredDrainsQueue(m: map<int, SignatureRecord>, nextKey: int, o: Oracle)
    requires forall id :: id in m ==> 1 <= id < nextKey
    requires forall i :: o.delivered(i) && !o.writeFails(i)
    ensures var snapshot := PendingSnapshot(m, nextKey);
      && PendingSnapshot(Batch(m, snapshot, o), nextKey) == []
      && Successes(o, |snapshot|) == |snapshot|
  {
    var snapshot := PendingSnapshot(m, nextKey);
    var m' := Batch(m, snapshot, o);
    PendingSnapshotRead(m, nextKey);
    BatchKeys(m, snapshot, o);
    forall id | id in m' ensures m'[id].synced {
      if m[id].synced {
        BatchNeverUnsyncs(m, snapshot, o, id);
      } else {
        PendingSnapshotCovers(m, nextKey, id);
        var j :| 0 <= j < |snapshot| && snapshot[j] == Stored(id, m[id]);
        BatchAt(m, snapshot, o, j);
      }
    }
    AllSyncedLeavesNothingPending(m', nextKey);
    AllSucceed(o, |snapshot|);
  }

  lemma {:induction false} AllSucceed(o: Oracle, n: nat)
    requires forall i :: o.delivered(i) && !o.writeFails(i)
    ensures Successes(o, n) == n
  {
    if n > 0 {
      AllSucceed(o, n - 1);
    }
  }

  lemma {:induction false} NoneSucceed(o: Oracle, n: nat)
    requires forall i :: !o.delivered(i)
    ensures Successes(o, n) == 0
  {
    if n > 0 {
      NoneSucceed(o, n - 1);
    }
  }

  /** What a batch of rejected deliveries leaves under the key `id`. */
  predicate AllRejectedOutcome(m: map<int, SignatureRecord>, m': map<int, SignatureRecord>, id: int)
    requires id in m && id in m'
  {
    m'[id] == if m[id].synced then m[id] else m[id].(syncAttempts := m[id].syncAttempts + 1)
  }

  lemma AllRejectedAt(m: map<int, SignatureRecord>, nextKey: int, o: Oracle, id: int)
    requires forall k :: k in m ==> 1 <= k < nextKey
    requires forall i :: !o.delivered(i) && !o.writeFails(i)
    requires id in m
    ensures id in Batch(m, PendingSnapshot(m, nextKey), o)
    ensures AllRejectedOutcome(m, Batch(m, PendingSnapshot(m, nextKey), o), id)
  {
    var snapshot := PendingSnapshot(m, nextKey);
    PendingSnapshotRead(m, nextKey);
    if m[id].synced {
      forall j | 0 <= j < |snapshot| ensures snapshot[j].id != id {
        assert !snapshot[j].record.synced;
      }
      BatchOutside(m, snapshot, o, id);
    } else {
      PendingSnapshotCovers(m, nextKey, id);
      var j :| 0 <= j < |snapshot| && snapshot[j] == Stored(id, m[id]);
      BatchAt(m, snapshot, o, j);
    }
  }

  /** When every delivery is rejected and recorded, every formerly pending
      record stays pending with exactly one more attempt, the other records
      are untouched, and nothing is lost or added. */
  lemma AllRejectedCountsAttempts(m: map<int, SignatureRecord>, nextKey: int, o: Oracle)
    requires forall id :: id in m ==> 1 <= id < nextKey
    requires forall i :: !o.delivered(i) && !o.writeFails(i)
    ensures var m' := Batch(m, PendingSnapshot(m, nextKey), o);
      && m'.Keys == m.Keys
      && (forall id :: id in m ==> AllRejectedOutcome(m, m', id))
      && Successes(o, |PendingSnapshot(m, nextKey)|) == 0
  {
    var snapshot := PendingSnapshot(m, nextKey);
    BatchKeys(m, snapshot, o);
    forall id | id in m
      ensures AllRejectedOutcome(m, Batch(m, snapshot, o), id)
    {
      AllRejectedAt(m, nextKey, o, id);
    }
    NoneSucceed(o, |snapshot|);
  }

  /** The body of the batch loop for one record: deliver it, then write the
      outcome with `updateSignature`; a rejected write lands in the loop's
      `catch` and counts as a failure. Reports whether it was a success. */
  method AttemptOne(store: SignatureStore, signature: Stored, i: nat, o: Oracle) returns (success: bool)
    requires store.Valid() && signature.id in store.records
    modifies store
    ensures store.Valid() && store.nextKey == old(store.nextKey)
    ensures store.records == Attempt(old(store.records), signature, i, o)
    ensures success == (o.delivered(i) && !o.writeFails(i))
  {
    if o.delivered(i) {
      var updated := store.Update(signature.id, DeliveredPatch(o.now(i)), o.writeFails(i));
      success := updated.Ok?;
    } else {
      var updated := store.Update(signature.id, RejectedPatch(signature.record.syncAttempts + 1), o.writeFails(i));
      success := false;
    }
  }

  /** The `for` loop of `syncAllSignatures` over the pending snapshot, with
      its two counters. */
  method RunBatch(store: SignatureStore, snapshot: seq<Stored>, o: Oracle)
    returns (attempted: seq<int>, successCount: nat, failCount: nat)
    requires store.Valid() && IsSnapshotOf(snapshot, store.records)
    modifies store
    ensures store.Valid() && store.nextKey == old(store.nextKey)
    ensures attempted == IdsOf(snapshot)
    ensures store.records == Batch(old(store.records), snapshot, o)
    ensures successCount == Successes(o, |snapshot|)
    ensures successCount + failCount == |snapshot|
  {
    ghost var m0 := store.records;
    attempted, successCount, failCount := [], 0, 0;
    for i := 0 to |snapshot|
      invariant store.Valid() && store.nextKey == old(store.nextKey)
      invariant attempted == IdsOf(snapshot[..i])
      invariant store.records == Batch(m0, snapshot[..i], o)
      invariant store.records.Keys == m0.Keys
      invariant successCount == Successes(o, i) && successCount + failCount == i
    {
      BatchStep(m0, snapshot, i, o);
      assert IdsOf(snapshot[..i + 1]) == IdsOf(snapshot[..i]) + [snapshot[i].id];
      attempted := attempted + [snapshot[i].id];
      var success := AttemptOne(store, snapshot[i], i, o);
      if success {
        successCount := successCount + 1;
      } else {
        failCount := failCount + 1;
      }
    }
    assert snapshot[..|snapshot|] == snapshot;
  }

  /** What `syncAllSignatures` reports once it has passed its online and
      configuration checks and tried to read `snapshot`. */
  function QueueOutcome(readFails: bool, snapshot: seq<Stored>, o: Oracle): SyncOutcome {
    if readFails then PendingReadFailed
    else if snapshot == [] then NothingPending
    else Finished(Successes(o, |snapshot|), |snapshot| - Successes(o, |snapshot|))
  }

  /** The snapshot the pending query of `syncAllSignatures` reads when the
      `synced` index sees the flag under encoding `enc`. */
  function ReadSnapshot(enc: SyncedEncoding, m: map<int, SignatureRecord>, nextKey: int): seq<Stored> {
    PendingVia(enc, InKeyOrder(m, 1, nextKey))
  }

  /** As written the read finds nothing; under the numeric encoding it finds
      the pending snapshot every batch lemma above is about. */
  lemma ReadSnapshotCases(enc: SyncedEncoding, m: map<int, SignatureRecord>, nextKey: int)
    ensures ReadSnapshot(enc, m, nextKey) == if enc == FixedEncoding then PendingSnapshot(m, nextKey) else []
  {
    FixedPathsAgree(InKeyOrder(m, 1, nextKey));
  }

  /** As written, the batch reads an empty snapshot even while a record waits
      for delivery, so that record is never attempted. */
  lemma SourceSnapshotMissesPending(m: map<int, SignatureRecord>, nextKey: int, id: int)
    requires forall k :: k in m ==> 1 <= k < nextKey
    requires id in m && !m[id].synced
    ensures Stored(id, m[id]) in PendingSnapshot(m, nextKey)
    ensures ReadSnapshot(SourceEncoding, m, nextKey) == []
  {
    PendingSnapshotCovers(m, nextKey, id);
    ReadSnapshotCases(SourceEncoding, m, nextKey);
  }

  /** The part of `syncAllSignatures` after its two early returns: read the
      pending records, stop if there are none, else run the batch. */
  method SyncQueue(store: SignatureStore, enc: SyncedEncoding, readFails: bool, o: Oracle)
    returns (outcome: SyncOutcome, attempted: seq<int>)
    requires store.Valid()
    modifies store
    ensures store.Valid() && store.nextKey == old(store.nextKey)
    ensures outcome == QueueOutcome(readFails, old(ReadSnapshot(enc, store.records, store.nextKey)), o)
    ensures !outcome.Finished? ==> store.records == old(store.records) && attempted == []
    ensures outcome.Finished? ==>
      var snapshot := old(ReadSnapshot(enc, store.records, store.nextKey));
      && enc == FixedEncoding
      && snapshot == old(PendingSnapshot(store.records, store.nextKey))
      && attempted == IdsOf(snapshot)
      && store.records == Batch(old(store.records), snapshot, o)
    ensures enc == SourceEncoding && !readFails ==>
      outcome == NothingPending && attempted == [] && store.records == old(store.records)
  {
    attempted := [];
    ReadSnapshotCases(enc, store.records, store.nextKey);
    var pending := store.GetPending(enc, readFails);
    if pending.Err? {
      return PendingReadFailed, attempted;
    }
    var snapshot := pending.value;
    if |snapshot| == 0 {
      return NothingPending, attempted;
    }
    PendingSnapshotRead(store.records, store.nextKey);
    var successCount, failCount;
    attempted, successCount, failCount := RunBatch(store, snapshot, o);
    outcome := Finished(successCount, failCount);
  }

  /** `syncAllSignatures`, with the pending query reading the `synced` index
      under encoding `enc`: `SourceEncoding` is the program as written,
      `FixedEncoding` the corrected one. */
  method SyncAll(store: SignatureStore, enc: SyncedEncoding, online: bool, url: string, readFails: bool, o: Oracle)
    returns (outcome: SyncOutcome, attempted: seq<int>)
    requires store.Valid()
    modifies store
    ensures store.Valid() && store.nextKey == old(store.nextKey)
    ensures var snapshot := old(ReadSnapshot(enc, store.records, store.nextKey));
      outcome ==
        if !online then Offline
        else if !Configured(url) then NotConfigured
        else QueueOutcome(readFails, snapshot, o)
    ensures !outcome.Finished? ==> store.records == old(store.records) && attempted == []
    ensures outcome.Finished? ==>
      var snapshot := old(ReadSnapshot(enc, store.records, store.nextKey));
      && enc == FixedEncoding
      && snapshot == old(PendingSnapshot(store.records, store.nextKey))
      && attempted == IdsOf(snapshot)
      && store.records == Batch(old(store.records), snapshot, o)
      && outcome.successCount + outcome.failCount == |snapshot|
    ensures enc == SourceEncoding && online && Configured(url) && !readFails ==>
      outcome == NothingPending && attempted == [] && store.records == old(store.records)
  {
    if !online {
      return Offline, [];
    }
    if !Configured(url) {
      return NotConfigured, [];
    }
    outcome, attempted := SyncQueue(store, enc, readFails, o);
  }
}

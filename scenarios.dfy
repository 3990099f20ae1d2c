/** End-to-end runs driven through the operations' contracts alone: save then
    sync, the same sync over the pending query as written, and a refused
    co-maker form. */
module Scenarios {
  import opened Records
  import opened Store
  import opened Capture
  import opened Sync

  /** A store holding one unsynced record has exactly that record pending. */
  lemma OneRecordPending(a: SignatureRecord)
    requires !a.synced
    ensures PendingSnapshot(map[1 := a], 2) == [Stored(1, a)]
  {
    assert InKeyOrder(map[1 := a], 1, 2) == [] + [Stored(1, a)];
    assert Pending([Stored(1, a)]) == Pending([]) + [Stored(1, a)];
  }

  /** Jane Doe's own signature, with an image, passes every check. */
  lemma SelfSignatureAccepted(image: string, createdAt: string)
    ensures BuildSignature(CaptureForm("Jane Doe", "Self", "", "", ""), true, image, createdAt).Ok?
  {
    NamedCustomer();
  }

  /** "Jane Doe" is not blank. */
  lemma NamedCustomer()
    ensures Trim("Jane Doe") != ""
  {
    TrimEmptyIffBlank("Jane Doe");
    assert !IsJsWhitespace("Jane Doe"[0]);
  }

  /** A co-maker signature whose co-maker name is blank is refused with the
      co-maker message. */
  lemma BlankCoMakerRefused(image: string, createdAt: string)
    ensures BuildSignature(CaptureForm("Jane Doe", "Co-maker", "  ", "", ""), true, image, createdAt)
      == Err(MissingCoMakerName)
  {
    NamedCustomer();
    TrimEmptyIffBlank("  ");
  }

  /** Save Jane Doe's own signature, find it alone in the queue, deliver it,
      and find the queue empty. */
  method SaveThenSync(url: string, image: string, createdAt: string, deliveredAt: string)
    returns (outcome: SyncOutcome, left: map<int, SignatureRecord>)
    requires Configured(url)
    ensures outcome == Finished(1, 0)
    ensures 1 in left && left[1].synced && left[1].syncedAt == Some(deliveredAt)
  {
    var store, a := SaveSelfSignature(image, createdAt);
    var pending := ListOne(store, a);
    OneRecordPending(a);
    ghost var before := store.records;
    outcome := DrainQueue(store, url, deliveredAt);
    left := store.records;
    assert before == map[1 := a];
    assert left[1] == before[1].(synced := true, syncedAt := Some(deliveredAt));
  }

  /** Jane Doe's own signature saved to a new store lands alone under key 1,
      unsynced. */
  method SaveSelfSignature(image: string, createdAt: string) returns (store: SignatureStore, a: SignatureRecord)
    ensures fresh(store) && store.Valid()
    ensures store.records == map[1 := a] && store.nextKey == 2 && !a.synced
  {
    store := new SignatureStore();
    var form := CaptureForm("Jane Doe", "Self", "", "", "");
    SelfSignatureAccepted(image, createdAt);
    var saved := SaveSignature(store, form, true, image, createdAt, false);
    assert saved == Ok(1);
    a := store.records[1];
  }

  /** The same saved record, synced with the pending query as written: the
      batch finds nothing to send and the record stays pending. */
  method SaveThenSyncAsWritten(url: string, image: string, createdAt: string, deliveredAt: string)
    returns (outcome: SyncOutcome, attempted: seq<int>, left: map<int, SignatureRecord>)
    requires Configured(url)
    ensures outcome == NothingPending && attempted == []
    ensures left.Keys == {1} && !left[1].synced
  {
    var store, a := SaveSelfSignature(image, createdAt);
    var o := Oracle(i => true, i => false, i => deliveredAt);
    outcome, attempted := SyncAll(store, SourceEncoding, true, url, false, o);
    assert store.records == map[1 := a];
    left := store.records;
  }

  /** The one saved record is what the pending query returns. */
  method ListOne(store: SignatureStore, a: SignatureRecord) returns (pending: Result<seq<Stored>, StoreError>)
    requires store.Valid() && store.records == map[1 := a] && store.nextKey == 2 && !a.synced
    ensures pending == Ok([Stored(1, a)])
  {
    OneRecordPending(a);
    pending := store.GetPending(FixedEncoding, false);
  }

  /** With every delivery accepted and recorded, one run of the batch
      empties the queue, counts every pending record as a success, and
      leaves each formerly pending record synced and stamped. */
  method DrainQueue(store: SignatureStore, url: string, deliveredAt: string) returns (outcome: SyncOutcome)
    requires store.Valid() && Configured(url)
    modifies store
    ensures var snapshot := old(PendingSnapshot(store.records, store.nextKey));
      outcome == if snapshot == [] then NothingPending else Finished(|snapshot|, 0)
    ensures store.Valid() && PendingSnapshot(store.records, store.nextKey) == []
    ensures store.records.Keys == old(store.records).Keys
    ensures forall id :: id in old(store.records) && !old(store.records)[id].synced ==>
      store.records[id] == old(store.records)[id].(synced := true, syncedAt := Some(deliveredAt))
  {
    var o := Oracle(i => true, i => false, i => deliveredAt);
    ghost var m := store.records;
    ghost var snapshot := PendingSnapshot(store.records, store.nextKey);
    AllDeliveredDrainsQueue(store.records, store.nextKey, o);
    ReadSnapshotCases(FixedEncoding, store.records, store.nextKey);
    PendingSnapshotRead(store.records, store.nextKey);
    BatchKeys(m, snapshot, o);
    var attempted;
    outcome, attempted := SyncAll(store, FixedEncoding, true, url, false, o);
    assert outcome == if snapshot == [] then NothingPending else Finished(|snapshot|, 0);
    assert store.records == Batch(m, snapshot, o);
    forall id | id in m && !m[id].synced
      ensures store.records[id] == m[id].(synced := true, syncedAt := Some(deliveredAt))
    {
      PendingSnapshotCovers(m, store.nextKey, id);
      var j :| 0 <= j < |snapshot| && snapshot[j] == Stored(id, m[id]);
      BatchAt(m, snapshot, o, j);
    }
  }

  /** A co-maker signature without the co-maker's name never reaches the store. */
  method CoMakerWithoutName(store: SignatureStore, image: string, createdAt: string)
    returns (saved: Result<int, SaveError>)
    requires store.Valid()
    modifies store
    ensures saved == Err(Invalid(MissingCoMakerName))
    ensures store.records == old(store.records)
  {
    var form := CaptureForm("Jane Doe", "Co-maker", "  ", "", "");
    BlankCoMakerRefused(image, createdAt);
    saved := SaveSignature(store, form, true, image, createdAt, false);
  }
}

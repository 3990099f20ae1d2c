# Offline signature queue

A Dafny model of the offline-first queue of the signature capture app
(`app.js`). Captured signatures are validated and saved locally in an
IndexedDB object store. A sync batch later walks the unsynced records one by
one, sends each to the remote endpoint, and writes the outcome back to the
record.

The model has four modules:

- `Records` (`records.dfy`) holds the stored record, and the `Object.assign`
  merge that `updateSignature` applies to it.
- `Store` (`store.dfy`) is the object store `signatures`, with keyPath `id`,
  auto-increment and an index on `synced`. It is a class `SignatureStore`
  whose fields are the records by key and the key generator's counter. Its
  methods are `saveToIndexedDB`, `getAllSignatures`, `getPendingSignatures`
  (the indexed query and the cursor fallback), `updateSignature` and
  `deleteSignature`. The `synced` index is modelled as well: which values
  are valid keys, and which records get an entry.
- `Capture` (`capture.dfy`) covers the checks and the record literal of
  `saveSignature`, with `String.prototype.trim`, and the hand-off to the
  store.
- `Sync` (`sync.dfy`) covers `syncAllSignatures`: the short-circuits, the
  read of the pending snapshot, and the sequential batch loop with its two
  counters. The network call and the clock are an `Oracle`. The batch is
  proved against the specification function `Batch`, and its properties are
  proved as lemmas about that function.

The pending query as written returns nothing (see "## Findings"). So
`getPendingSignatures`, `Sync.SyncQueue` and `Sync.SyncAll` take the
encoding of the `synced` flag as a parameter: `SourceEncoding` is the
program as written, `FixedEncoding` the corrected one. Under
`SourceEncoding` the contracts state that a batch never attempts anything
and never changes the store. The batch lemmas (`PendingSnapshot` and
everything proved about it) describe the corrected read, the only one under
which the loop runs at all.

`scenarios.dfy` holds three end-to-end scenarios, proved from the contracts alone:

- save Jane Doe's own signature, see it pending, deliver it, and see the
  queue empty, with one success and no failure;
- the same save and sync with the pending query as written, which attempts
  nothing and leaves the record pending;
- refuse a co-maker signature whose co-maker name is blank.

Each store request either succeeds or fires `onerror`. The caller chooses
which with a `fails` flag (`Add`, `Update`, `Delete`, the pending read). The
flag is needed because a failing `updateSignature` is the only way into the
`catch` of the batch loop. `syncSignature` itself catches everything.

Three behaviours of the code, which the model keeps:

- `signatureType` is not trimmed (app.js:239); the other four fields are.
- A record whose delivery succeeded, but whose `updateSignature` then failed,
  counts as a failure. It keeps its old state, so it stays pending and is
  delivered again by a later batch. Its `syncAttempts` is not increased.
- An offline or unconfigured batch returns without any counts. `SyncOutcome`
  names each early return.

## Model

| member | source | states |
|---|---|---|
| Records.Assign | app.js:399 | `Object.assign`: every property the update names takes the update's value, every other keeps the record's value |
| Records.AssignEmpty | app.js:399 | merging an empty update object leaves the record unchanged |
| Records.AssignIdempotent | app.js:399 | merging the same update twice equals merging it once |
| Records.DeliveredPatchEffect | app.js:473-476 | the delivery update sets `synced` and `syncedAt` and changes nothing else |
| Records.RejectedPatchEffect | app.js:479-481 | the rejection update sets only `syncAttempts` |
| Store.SignatureStore.constructor | app.js:91-101 | a freshly created store is empty and its key generator stands at 1 |
| Store.SignatureStore.Add | app.js:308-323 | on success the new key is the generator's current value, above every key in use; the store gains exactly that record and the generator moves on by one; past 2^53 the add fails with ConstraintError; an `onerror` changes nothing |
| Store.InKeyOrder | app.js:326-340 | the listing is strictly ascending by key and every entry is a stored record within the key range |
| Store.InKeyOrderCovers | app.js:326-340 | every stored record with a key in range appears in the listing |
| Store.InKeyOrderEnumerates | app.js:326-340 | the listing of the whole key range lists every record of the store exactly once, in key order |
| Store.SignatureStore.GetAll | app.js:326-340 | `getAll` returns exactly the stored records, once each, in ascending key order |
| Store.WithSynced | app.js:370 | the filter keeps only records with the chosen `synced` flag and never lengthens the list |
| Store.WithSyncedMembers | app.js:370 | a record survives the filter if and only if it was in the list with the chosen flag |
| Store.WithSyncedAscending | app.js:370 | filtering keeps the key order |
| Store.WithSyncedConcat | app.js:365-377 | filtering a concatenation is concatenating the filtered parts |
| Store.PendingEmptyIff | app.js:370 | nothing is pending exactly when every record is synced |
| Store.WithSyncedTwice | app.js:370 | filtering twice by the same flag is filtering once |
| Store.WithSyncedExclusive | app.js:370 | no record survives filtering by both flags |
| Store.PendingSnoc | app.js:367-374 | one cursor step appends the visited record exactly when it is unsynced |
| Store.CollectUnsynced | app.js:365-377 | the cursor walk collects exactly the unsynced entries, in cursor order |
| Store.PendingOfListing | app.js:343-384 | the unsynced part of the store's listing holds exactly the unsynced stored records |
| Store.SourcePendingMissesRecords | app.js:349-377 | with `synced` stored as a boolean, the key range throws DataError and both paths return nothing, although unsynced records exist |
| Store.SourcePendingExample | app.js:349-377 | a store with one unsynced record reports no pending record as written |
| Store.FixedPathsAgree | app.js:349-377 | with a valid key encoding, the indexed query and the cursor fallback both return exactly the unsynced records in key order |
| Store.SignatureStore.CursorScan | app.js:362-377 | the cursor fallback returns the unsynced entries of the index, which are the unsynced records under the valid key encoding |
| Store.SignatureStore.GetPending | app.js:343-384 | an `onerror` rejects; otherwise the result is the indexed path, or the cursor path when the key range throws; under the valid encoding it holds exactly the unsynced records |
| Store.SignatureStore.Update | app.js:386-416 | a missing key rejects with NotFound; a failing write rejects and changes nothing; otherwise only that record changes, to the merge of the old record and the update |
| Store.SignatureStore.Delete | app.js:418-432 | removes that key and nothing else, whether or not it was present; an `onerror` changes nothing |
| Capture.LeadingBlanks | app.js:238 | counts the white space `s` starts with: all of it is white space and the next character is not |
| Capture.TrailingBlanks | app.js:238 | counts the white space `s` ends with: all of it is white space and the character before is not |
| Capture.TrimSlice | app.js:238-242 | `trim` returns the middle slice of the string, with only white space cut on both sides, and the slice neither starts nor ends with white space |
| Capture.TrimIsSlice | app.js:238-242 | the trimmed string is one contiguous slice of the input |
| Capture.TrimSuffixBlank | app.js:238-242 | everything after the trimmed slice is white space |
| Capture.TrimEnds | app.js:238-242 | a non-empty trimmed string starts and ends with a non-white-space character |
| Capture.TrimIdempotent | app.js:238-242 | trimming twice is trimming once |
| Capture.TrimEmptyIffBlank | app.js:244-247 | a field trims to empty exactly when it is all white space |
| Capture.BuildSignature | app.js:244-278 | the form is accepted exactly when all four checks pass; each error is reported exactly under its check, in order; a built record holds the trimmed fields, the untrimmed type, `synced=false`, `syncAttempts=0`, no `syncedAt`, and an empty co-maker name unless the type is `Co-maker` |
| Capture.BuiltRecordInvariant | app.js:254-271 | a built record names a co-maker exactly when it is a co-maker signature; its customer name is non-blank and already trimmed |
| Capture.SaveSignature | app.js:236-290 | a refused form never reaches the store; an accepted one is added under a fresh key above every key in use; an exhausted key generator fails the save with ConstraintError and a storage fault with StorageFault, and every failed save leaves the store as it was; with a working store and keys left, an accepted form is always saved |
| Sync.Includes | app.js:444 | `includes` is true exactly when the part occurs at some position of the string |
| Sync.PlaceholderNotConfigured | app.js:444 | any URL containing `YOUR_GOOGLE` counts as not configured |
| Sync.Successes | app.js:465-488 | the success counter never exceeds the number of attempts |
| Sync.BatchKeys | app.js:468-488 | a batch neither adds nor removes records |
| Sync.BatchOutside | app.js:468-488 | records outside the snapshot are untouched |
| Sync.SnapshotPrefix | app.js:468 | a prefix of a snapshot of the store is still a snapshot of it |
| Sync.BatchAt | app.js:468-488 | each snapshot record ends as its own attempt left it: delivered means `synced=true` with `syncedAt` stamped; rejected means one more attempt; a failed write leaves it as it was |
| Sync.BatchStep | app.js:468-488 | the batch over one more record is one more attempt on the batch so far |
| Sync.BatchNeverUnsyncs | app.js:468-488 | no record goes from synced back to unsynced |
| Sync.BatchMonotone | app.js:468-488 | over a snapshot read from the store, `syncAttempts` never decreases and `synced` never reverts, for every record |
| Sync.PendingSnapshotRead | app.js:449-456 | the snapshot of the corrected read holds stored records, only unsynced ones, with no key twice, in ascending key order |
| Sync.PendingSnapshotCovers | app.js:449-456 | every unsynced record is in the snapshot of the corrected read |
| Sync.EachPendingAttemptedOnce | app.js:468 | over the corrected read, the batch attempts every unsynced record and no other, never the same key twice |
| Sync.RetryLimitIgnored | app.js:468 | over the corrected read, a record whose attempts have reached `MAX_RETRY_ATTEMPTS` (app.js line 23) is still attempted |
| Sync.AllSyncedLeavesNothingPending | app.js:458-461 | a store whose records are all synced has an empty pending snapshot |
| Sync.AllSucceed | app.js:472-477 | when every attempt is delivered and recorded, each one counts as a success |
| Sync.NoneSucceed | app.js:478-483 | when every delivery is rejected, no attempt counts as a success |
| Sync.AllDeliveredDrainsQueue | app.js:465-488 | over the corrected read, when every delivery is accepted and recorded, nothing is pending afterwards and every attempt is a success |
| Sync.AllRejectedAt | app.js:478-483 | over the corrected read, when every delivery is rejected and recorded, a formerly pending record gains exactly one attempt and stays unsynced, and a synced one is untouched |
| Sync.AllRejectedCountsAttempts | app.js:465-488 | over the corrected read, when every delivery is rejected and recorded, no record is lost or added, each pending record gains exactly one attempt, and nothing counts as a success |
| Sync.AttemptOne | app.js:469-487 | one iteration of the loop changes the store as the specification `Attempt` says, and succeeds exactly when the record was delivered and recorded |
| Sync.RunBatch | app.js:465-488 | the loop attempts the snapshot in order, leaves the store as `Batch` says, and its two counters sum to the snapshot size with the successes as `Successes` counts them |
| Sync.ReadSnapshotCases | app.js:449-456 | the batch's read returns nothing as written, and the pending snapshot under the corrected encoding |
| Sync.SourceSnapshotMissesPending | app.js:449-461 | as written, the batch reads an empty snapshot although an unsynced record exists, so it ends at the "all synced" return without attempting that record |
| Sync.SyncQueue | app.js:449-488 | a failed read or an empty snapshot makes no attempt and changes nothing; otherwise the corrected read's snapshot is run as one batch; as written, a successful read always ends with nothing pending, no attempt and no change |
| Sync.SyncAll | app.js:438-488 | offline, unconfigured, a failed read or nothing pending each end the call with no attempt and no change; otherwise it attempts exactly the snapshot, in order, with counts summing to its size; as written, an online and configured call with a successful read never attempts anything |
| Scenarios.OneRecordPending | app.js:343-384 | a store holding one unsynced record under key 1 has exactly that record pending |
| Scenarios.SelfSignatureAccepted | app.js:244-262 | Jane Doe's own signature with an image passes every check |
| Scenarios.NamedCustomer | app.js:238 | the name "Jane Doe" does not trim to empty |
| Scenarios.BlankCoMakerRefused | app.js:254-257 | a co-maker signature with a blank co-maker name is refused with the co-maker message |
| Scenarios.DrainQueue | app.js:438-488 | with every delivery accepted and recorded, the corrected batch reports every pending record as a success and none as a failure, leaves nothing pending, keeps every key, and leaves each formerly pending record synced with `syncedAt` stamped |
| Scenarios.ListOne | app.js:343-384 | over the corrected encoding, the pending query on a store holding one unsynced record under key 1 returns exactly that record |
| Scenarios.SaveThenSync | app.js:281-296 | Jane Doe's own signature, saved to an empty store and then synced over the corrected read with every delivery accepted and recorded, ends as one success and no failure, with record 1 synced and `syncedAt` stamped |
| Scenarios.SaveThenSyncAsWritten | app.js:281-296 | the same save and sync with the pending query as written ends at "nothing pending", attempts nothing, and leaves the saved record the only one, still unsynced |
| Scenarios.CoMakerWithoutName | app.js:236-257 | saving a co-maker form with a blank co-maker name is refused with the co-maker error and leaves the store unchanged |

## Left out

- Canvas drawing and pointer handling (app.js:113-180). The image is an
  opaque string, and whether anything was drawn is the `hasSignature` flag.
- DOM rendering, messages, the loading overlay and the online indicator.
  These are UI only. `loadPendingSignatures` and `updateStats` after a save
  or a batch read the store and change nothing.
- The HTTP and JSON exchange inside `syncSignature` (app.js:505-545). It
  catches every error and returns a boolean. `Oracle.delivered` stands for
  that boolean.
- Timers and event triggers: `setupAutoSync`, `handleOnline`, and the sync
  started after a save (app.js:294-296). Overlapping batches are a
  concurrency matter, and the model runs one batch at a time. In particular
  it does not capture a stale snapshot from one batch lowering a
  `syncAttempts` that another batch raised.
- Asynchronous transactions and promises. Each store operation is one
  atomic step.
- Timestamps from `new Date().toISOString()`. They are opaque strings
  supplied by the caller.
- The `timestamp` and `customerName` indexes. No modelled operation queries
  them.
- `indexedDB.open` failing, and schema upgrades other than creating the
  store.
- service-worker.js: cache handling, background sync and push stubs.
- Store.SignatureStore.GetAll: `getAll`'s `onerror` is not modelled.
  Nothing in the core handles it.
- Store.SignatureStore.Update: a failure of the initial `get` and a failure
  of the `put` are one `fails` flag. On a missing key the model reports
  NotFound even when the flag is set.
- Records.Patch: an update naming `id` is not modelled, because the core
  never passes one.
- Store.FixedPathsAgree: the cursor half tests the decoded flag. It stands
  for the corrected test against the stored 0, not for the `=== false` of
  app.js:370, which never matches a stored number.
- Sync.PendingSnapshot: it and the batch lemmas about it describe the
  corrected read. As written the read is empty, and `Sync.SyncAll` states
  that no batch then runs.

## Findings

| source | as written | input that shows it | evidently intended | confidence | as-written member | corrected member |
|---|---|---|---|---|---|---|
| app.js:349-377 | `synced` is stored as a JavaScript boolean. A boolean is not a valid IndexedDB key, so `IDBKeyRange.only(false)` throws DataError. The cursor fallback walks the `synced` index, which holds no entry for any record whose `synced` is a boolean. `getPendingSignatures` therefore resolves `[]` whatever the store holds, and `syncAllSignatures` never delivers anything. | a store holding one record `{id: 1, synced: false, ...}` | `getPendingSignatures` returns the unsynced records. One way: store `synced` as 0/1, query `IDBKeyRange.only(0)`, and change the cursor's test at app.js:370 to match the stored 0 (`=== 0`, or `!cursor.value.synced`). A stored 0 never equals `false`, so without that third change the fallback would still return nothing. With all three, both paths agree | high; not executed | Store.SourcePendingMissesRecords, Store.SourcePendingExample, Sync.SourceSnapshotMissesPending, Sync.SyncAll (with `SourceEncoding`) | Store.FixedPathsAgree, Store.SignatureStore.GetPending and Sync.SyncAll (with `FixedEncoding`) |

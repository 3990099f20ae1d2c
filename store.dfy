/** The IndexedDB object store `signatures` (keyPath `id`, auto-increment,
    with an index on `synced`) and the five operations the application runs
    against it. Each operation is one atomic step; a request whose `onerror`
    fires is modelled by a `fails` flag chosen by the caller. */
module Store {
  import opened Records

  /** IndexedDB's key generator stops producing keys past 2^53. */
  const MaxGeneratedKey: int := 9007199254740992

  datatype StoreError =
    | NotFound         // `updateSignature` found no record ("Signature not found")
    | ConstraintError  // the key generator is exhausted
    | DataError        // a value used as a key is not a valid key
    | StorageFault     // the request's `onerror`: storage unavailable, full, ...

  predicate StrictlyAscending(s: seq<Stored>) {
    forall i, j :: 0 <= i < j < |s| ==> s[i].id < s[j].id
  }

  /** `s` lists exactly the records of `m`, once each, in ascending key order. */
  predicate Enumerates(s: seq<Stored>, m: map<int, SignatureRecord>) {
    && StrictlyAscending(s)
    && (forall i :: 0 <= i < |s| ==> s[i].id in m && m[s[i].id] == s[i].record)
    && (forall id :: id in m ==> exists i :: 0 <= i < |s| && s[i].id == id)
  }

  /** The records of `m` whose keys lie in [lo, hi), in ascending key order:
      the order in which `getAll` and a cursor deliver them. */
  function InKeyOrder(m: map<int, SignatureRecord>, lo: int, hi: int): (s: seq<Stored>)
    ensures StrictlyAscending(s)
    ensures forall i :: 0 <= i < |s| ==> lo <= s[i].id < hi && s[i].id in m && m[s[i].id] == s[i].record
    decreases hi - lo
  {
    if hi <= lo then []
    else if hi - 1 in m then InKeyOrder(m, lo, hi - 1) + [Stored(hi - 1, m[hi - 1])]
    else InKeyOrder(m, lo, hi - 1)
  }

  /** No record with a key in [lo, hi) is missing from `InKeyOrder`. */
  lemma {:induction false} InKeyOrderCovers(m: map<int, SignatureRecord>, lo: int, hi: int, id: int)
    requires id in m && lo <= id < hi
    ensures exists i :: 0 <= i < |InKeyOrder(m, lo, hi)| && InKeyOrder(m, lo, hi)[i] == Stored(id, m[id])
    decreases hi - lo
  {
    var s := InKeyOrder(m, lo, hi);
    if id == hi - 1 {
      assert s[|s| - 1] == Stored(id, m[id]);
    } else {
      InKeyOrderCovers(m, lo, hi - 1, id);
      var init := InKeyOrder(m, lo, hi - 1);
      var i :| 0 <= i < |init| && init[i] == Stored(id, m[id]);
      assert s[i] == init[i];
    }
  }

  /** The records of `s` whose `synced` property is `flag`, in the order of `s`. */
  function WithSynced(s: seq<Stored>, flag: bool): (r: seq<Stored>)
    ensures |r| <= |s|
    ensures forall i :: 0 <= i < |r| ==> r[i].record.synced == flag
  {
    if s == [] then []
    else if s[|s| - 1].record.synced == flag then WithSynced(s[..|s| - 1], flag) + [s[|s| - 1]]
    else WithSynced(s[..|s| - 1], flag)
  }

  /** Filtering keeps exactly the records with the chosen flag. */
  lemma {:induction false} WithSyncedMembers(s: seq<Stored>, flag: bool)
    ensures forall x :: x in WithSynced(s, flag) <==> x in s && x.record.synced == flag
    decreases |s|
  {
    if s != [] {
      var init := s[..|s| - 1];
      WithSyncedMembers(init, flag);
      assert s == init + [s[|s| - 1]];
    }
  }

  /** Filtering keeps the key order. */
  lemma {:induction false} WithSyncedAscending(s: seq<Stored>, flag: bool)
    requires StrictlyAscending(s)
    ensures StrictlyAscending(WithSynced(s, flag))
    decreases |s|
  {
    if s != [] {
      var init, last := s[..|s| - 1], s[|s| - 1];
      WithSyncedAscending(init, flag);
      WithSyncedMembers(init, flag);
      var r := WithSynced(s, flag);
      if last.record.synced == flag {
        forall i, j | 0 <= i < j < |r| ensures r[i].id < r[j].id {
          if j == |r| - 1 {
            assert r[i] in init;
          }
        }
      }
    }
  }

  /** When every key of `m` lies in [lo, hi), `InKeyOrder` lists all of `m`. */
  lemma InKeyOrderEnumerates(m: map<int, SignatureRecord>, lo: int, hi: int)
    requires forall id :: id in m ==> lo <= id < hi
    ensures Enumerates(InKeyOrder(m, lo, hi), m)
  {
    var s := InKeyOrder(m, lo, hi);
    forall id | id in m ensures exists i :: 0 <= i < |s| && s[i].id == id {
      InKeyOrderCovers(m, lo, hi, id);
      var i :| 0 <= i < |s| && s[i] == Stored(id, m[id]);
      assert s[i].id == id;
    }
  }

  /** The records still waiting for delivery. */
  function Pending(s: seq<Stored>): seq<Stored> {
    WithSynced(s, false)
  }

  lemma {:induction false} WithSyncedConcat(a: seq<Stored>, b: seq<Stored>, flag: bool)
    ensures WithSynced(a + b, flag) == WithSynced(a, flag) + WithSynced(b, flag)
    decreases |b|
  {
    if b == [] {
      assert a + b == a;
    } else {
      var b' := b[..|b| - 1];
      assert (a + b)[..|a + b| - 1] == a + b';
      WithSyncedConcat(a, b', flag);
    }
  }

  /** The step a cursor walk takes: one more record, kept if unsynced. */
  lemma PendingSnoc(s: seq<Stored>, x: Stored)
    ensures Pending(s + [x]) == Pending(s) + (if !x.record.synced then [x] else [])
  {
    assert (s + [x])[..|s|] == s;
  }

  /** Nothing is pending exactly when every record is synced. */
  lemma {:induction false} PendingEmptyIff(s: seq<Stored>)
    ensures Pending(s) == [] <==> forall i :: 0 <= i < |s| ==> s[i].record.synced
    decreases |s|
  {
    if s != [] {
      var init := s[..|s| - 1];
      PendingEmptyIff(init);
      assert forall i :: 0 <= i < |init| ==> init[i] == s[i];
    }
  }

  lemma {:induction false} WithSyncedTwice(s: seq<Stored>, flag: bool)
    ensures WithSynced(WithSynced(s, flag), flag) == WithSynced(s, flag)
    decreases |s|
  {
    if s != [] {
      var init := s[..|s| - 1];
      WithSyncedTwice(init, flag);
      if s[|s| - 1].record.synced == flag {
        WithSyncedConcat(WithSynced(init, flag), [s[|s| - 1]], flag);
      }
    }
  }

  lemma {:induction false} WithSyncedExclusive(s: seq<Stored>, flag: bool)
    ensures WithSynced(WithSynced(s, flag), !flag) == []
    decreases |s|
  {
    if s != [] {
      var init, last := s[..|s| - 1], s[|s| - 1];
      WithSyncedExclusive(init, flag);
      if last.record.synced == flag {
        WithSyncedConcat(WithSynced(init, flag), [last], !flag);
        assert [last][..0] == [];
      }
    }
  }

  // ---------------------------------------------------------------------
  // The `synced` index
  // ---------------------------------------------------------------------

  /** How the `synced` property appears to the index: as the JavaScript
      boolean the application stores (`AsBoolean`), or as the number 0 or 1
      (`AsNumber`, the encoding under which the index works). */
  datatype SyncedEncoding = AsBoolean | AsNumber

  const SourceEncoding: SyncedEncoding := AsBoolean
  const FixedEncoding: SyncedEncoding := AsNumber

  datatype KeyValue = BooleanValue(b: bool) | NumberValue(n: int)

  /** IndexedDB accepts numbers (and strings, dates, binaries and arrays) as
      keys, never booleans. */
  predicate IsValidKey(k: KeyValue) {
    k.NumberValue?
  }

  function SyncedKey(enc: SyncedEncoding, synced: bool): KeyValue {
    match enc
    case AsBoolean => BooleanValue(synced)
    case AsNumber => NumberValue(if synced then 1 else 0)
  }

  /** `IDBKeyRange.only(k)`, which throws a DataError for an invalid key. */
  function KeyRangeOnly(k: KeyValue): Result<KeyValue, StoreError> {
    if IsValidKey(k) then Ok(k) else Err(DataError)
  }

  /** The entries of the `synced` index over `all` (given in key order), in
      index order: by index key, the key of an unsynced record (0) before
      that of a synced one (1), then by primary key. A record whose indexed
      value is not a valid key has no entry. */
  function SyncedIndex(enc: SyncedEncoding, all: seq<Stored>): seq<Stored> {
    (if IsValidKey(SyncedKey(enc, false)) then WithSynced(all, false) else []) +
    (if IsValidKey(SyncedKey(enc, true)) then WithSynced(all, true) else [])
  }

  /** `index.getAll(range)` for the range holding just the key `q`. */
  function IndexGetAll(enc: SyncedEncoding, all: seq<Stored>, q: KeyValue): seq<Stored> {
    (if IsValidKey(q) && SyncedKey(enc, false) == q then WithSynced(all, false) else []) +
    (if IsValidKey(q) && SyncedKey(enc, true) == q then WithSynced(all, true) else [])
  }

  /** The indexed path: `index.getAll(IDBKeyRange.only(false))`. */
  function IndexedPath(enc: SyncedEncoding, all: seq<Stored>): Result<seq<Stored>, StoreError> {
    match KeyRangeOnly(SyncedKey(enc, false))
    case Err(e) => Err(e)
    case Ok(q) => Ok(IndexGetAll(enc, all, q))
  }

  /** The cursor fallback: walk the whole index, keep the unsynced entries.
      The test is on the decoded flag: as written it compares the stored
      value with `false`, which is the same test under `AsBoolean`; under
      `AsNumber` it stands for a test against the stored 0 (`=== 0`, or
      `!cursor.value.synced`), since a stored 0 is never `=== false`. */
  function CursorPath(enc: SyncedEncoding, all: seq<Stored>): seq<Stored> {
    Pending(SyncedIndex(enc, all))
  }

  /** What `getPendingSignatures` resolves with: the indexed path, or the
      cursor fallback when building the key range throws. */
  function PendingVia(enc: SyncedEncoding, all: seq<Stored>): seq<Stored> {
    match IndexedPath(enc, all)
    case Ok(r) => r
    case Err(_) => CursorPath(enc, all)
  }

  /** With `synced` stored as a boolean, the query throws, the index holds no
      entries, and a record waiting for delivery is never reported. */
  lemma SourcePendingMissesRecords(all: seq<Stored>, x: Stored)
    requires x in all && !x.record.synced
    ensures x in Pending(all)
    ensures IndexedPath(SourceEncoding, all) == Err(DataError)
    ensures PendingVia(SourceEncoding, all) == []
  {
    WithSyncedMembers(all, false);
  }

  /** A concrete store state that shows the discrepancy: one unsynced record. */
  lemma SourcePendingExample(r: SignatureRecord)
    requires !r.synced
    ensures Pending([Stored(1, r)]) == [Stored(1, r)]
    ensures PendingVia(SourceEncoding, [Stored(1, r)]) == []
  {
    assert [Stored(1, r)][..0] == [];
  }

  /** With a valid key encoding, the indexed path and the cursor fallback
      both return exactly the unsynced records, in key order. The cursor half
      assumes the fallback's test changes along with the encoding, to match
      the stored 0 (see `CursorPath`). */
  lemma FixedPathsAgree(all: seq<Stored>)
    ensures IndexedPath(FixedEncoding, all) == Ok(Pending(all))
    ensures CursorPath(FixedEncoding, all) == Pending(all)
    ensures PendingVia(FixedEncoding, all) == Pending(all)
  {
    var p, d := WithSynced(all, false), WithSynced(all, true);
    assert SyncedIndex(FixedEncoding, all) == p + d;
    assert IndexGetAll(FixedEncoding, all, NumberValue(0)) == p + [] == p;
    calc {
      CursorPath(FixedEncoding, all);
      WithSynced(p + d, false);
      { WithSyncedConcat(p, d, false); }
      WithSynced(p, false) + WithSynced(d, false);
      { WithSyncedTwice(all, false); WithSyncedExclusive(all, true); }
      p + [];
      p;
    }
  }

  /** The body of the cursor's `onsuccess` handler, run once per entry:
      `if (cursor.value.synced === false) results.push(cursor.value)`. */
  method CollectUnsynced(entries: seq<Stored>) returns (results: seq<Stored>)
    ensures results == Pending(entries)
  {
    results := [];
    var i := 0;
    while i < |entries|
      invariant 0 <= i <= |entries|
      invariant results == Pending(entries[..i])
    {
      assert entries[..i + 1] == entries[..i] + [entries[i]];
      PendingSnoc(entries[..i], entries[i]);
      if !entries[i].record.synced {
        results := results + [entries[i]];
      }
      i := i + 1;
    }
    assert entries[..i] == entries;
  }

  /** The unsynced records of a listing of `m` are exactly the unsynced
      records of `m`. */
  lemma PendingOfListing(m: map<int, SignatureRecord>, lo: int, hi: int)
    requires forall id :: id in m ==> lo <= id < hi
    ensures forall x :: x in Pending(InKeyOrder(m, lo, hi)) <==> x.id in m && m[x.id] == x.record && !x.record.synced
  {
    var all := InKeyOrder(m, lo, hi);
    WithSyncedMembers(all, false);
    forall x: Stored | x.id in m && m[x.id] == x.record ensures x in all {
      InKeyOrderCovers(m, lo, hi, x.id);
    }
  }

  // ---------------------------------------------------------------------
  // The object store
  // ---------------------------------------------------------------------

  class SignatureStore {
    /** The records, by key. */
    var records: map<int, SignatureRecord>
    /** The key generator's current number: the key the next `add` gets. */
    var nextKey: int

    ghost predicate Valid()
      reads this
    {
      && 1 <= nextKey <= MaxGeneratedKey + 1
      && forall id :: id in records ==> 1 <= id < nextKey
    }

    /** Every record, in key order. */
    function All(): seq<Stored>
      reads this
    {
      InKeyOrder(records, 1, nextKey)
    }

    /** `initDB` creating the store: empty, key generator at 1. */
    constructor ()
      ensures Valid()
      ensures records == map[] && nextKey == 1
    {
      records := map[];
      nextKey := 1;
    }

    /** `saveToIndexedDB`: `objectStore.add(signature)`. */
    method Add(r: SignatureRecord, fails: bool) returns (res: Result<int, StoreError>)
      requires Valid()
      modifies this
      ensures Valid()
      ensures old(nextKey) > MaxGeneratedKey ==> res == Err(ConstraintError)
      ensures old(nextKey) <= MaxGeneratedKey ==> res == if fails then Err(StorageFault) else Ok(old(nextKey))
      ensures res.Err? ==> records == old(records) && nextKey == old(nextKey)
      ensures res.Ok? ==> forall id :: id in old(records) ==> id < res.value
      ensures res.Ok? ==> records == old(records)[res.value := r] && nextKey == res.value + 1
    {
      if nextKey > MaxGeneratedKey {
        return Err(ConstraintError);
      }
      if fails {
        return Err(StorageFault);
      }
      res := Ok(nextKey);
      records := records[nextKey := r];
      nextKey := nextKey + 1;
    }

    /** `getAllSignatures`: `objectStore.getAll()`. */
    method GetAll() returns (all: seq<Stored>)
      requires Valid()
      ensures Enumerates(all, records)
      ensures all == All()
    {
      all := All();
      InKeyOrderEnumerates(records, 1, nextKey);
    }

    /** `getPendingSignatures`: the indexed query inside `try`, the cursor
        walk over the index in `catch`. */
    method GetPending(enc: SyncedEncoding, fails: bool) returns (res: Result<seq<Stored>, StoreError>)
      requires Valid()
      ensures res == if fails then Err(StorageFault) else Ok(PendingVia(enc, All()))
      ensures enc == FixedEncoding && !fails ==> res == Ok(Pending(All()))
      ensures enc == FixedEncoding && res.Ok? ==>
        forall x :: x in res.value <==> x.id in records && records[x.id] == x.record && !x.record.synced
    {
      var all := All();
      if fails {
        return Err(StorageFault);
      }
      var range := KeyRangeOnly(SyncedKey(enc, false));
      if range.Ok? {
        res := Ok(IndexGetAll(enc, all, range.value));
      } else {
        var results := CursorScan(enc);
        res := Ok(results);
      }
      if enc == FixedEncoding {
        FixedPathsAgree(all);
        PendingOfListing(records, 1, nextKey);
      }
    }

    /** The cursor fallback of `getPendingSignatures`: open a cursor on the
        `synced` index and push every entry whose `synced` is `false`. */
    method CursorScan(enc: SyncedEncoding) returns (results: seq<Stored>)
      requires Valid()
      ensures results == CursorPath(enc, All())
      ensures enc == FixedEncoding ==> results == Pending(All())
    {
      var all := All();
      results := CollectUnsynced(SyncedIndex(enc, all));
      if enc == FixedEncoding {
        FixedPathsAgree(all);
      }
    }

    /** `updateSignature`: get the record, `Object.assign` the updates,
        `put` it back. */
    method Update(id: int, updates: Patch, fails: bool) returns (res: Result<SignatureRecord, StoreError>)
      requires Valid()
      modifies this
      ensures Valid()
      ensures nextKey == old(nextKey)
      ensures id !in old(records) ==> res == Err(NotFound)
      ensures id in old(records) && fails ==> res == Err(StorageFault)
      ensures res.Err? ==> records == old(records)
      ensures id in old(records) && !fails ==>
        res == Ok(Assign(old(records)[id], updates)) && records == old(records)[id := res.value]
    {
      if id !in records {
        return Err(NotFound);
      }
      var signature := Assign(records[id], updates);
      if fails {
        return Err(StorageFault);
      }
      records := records[id := signature];
      res := Ok(signature);
    }

    /** `deleteSignature`: `objectStore.delete(id)`, which succeeds whether
        or not the key is present. */
    method Delete(id: int, fails: bool) returns (res: Result<(), StoreError>)
      requires Valid()
      modifies this
      ensures Valid()
      ensures nextKey == old(nextKey)
      ensures res == if fails then Err(StorageFault) else Ok(())
      ensures records == if fails then old(records) else old(records) - {id}
    {
      if fails {
        return Err(StorageFault);
      }
      records := records - {id};
      res := Ok(());
    }
  }
}

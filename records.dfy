/** The signature record kept in the offline queue, and the merge that
    `updateSignature` performs on it with `Object.assign`. */
module Records {

  datatype Option<+T> = None | Some(value: T)

  datatype Result<+T, +E> = Ok(value: T) | Err(error: E)

  /** A stored signature, without its key. `syncedAt` is absent until the
      record is first delivered; timestamps are opaque ISO strings. */
  datatype SignatureRecord = SignatureRecord(
    customerName: string,
    signatureType: string,
    coMakerName: string,
    agentId: string,
    notes: string,
    signatureData: string,
    timestamp: string,
    synced: bool,
    syncAttempts: int,
    syncedAt: Option<string>)

  /** A record as the object store returns it: the value together with the
      `id` the key generator wrote into its key path. */
  datatype Stored = Stored(id: int, record: SignatureRecord)

  /** The `updates` object of `updateSignature`: every property it names
      overwrites the record's property of that name. The key `id` is never
      among them. */
  datatype Patch = Patch(
    customerName: Option<string>,
    signatureType: Option<string>,
    coMakerName: Option<string>,
    agentId: Option<string>,
    notes: Option<string>,
    signatureData: Option<string>,
    timestamp: Option<string>,
    synced: Option<bool>,
    syncAttempts: Option<int>,
    syncedAt: Option<string>)

  const EmptyPatch := Patch(None, None, None, None, None, None, None, None, None, None)

  /** `{ synced: true, syncedAt: at }`, written after a delivery. */
  function DeliveredPatch(at: string): Patch {
    EmptyPatch.(synced := Some(true), syncedAt := Some(at))
  }

  /** `{ syncAttempts: attempts }`, written after a rejected delivery. */
  function RejectedPatch(attempts: int): Patch {
    EmptyPatch.(syncAttempts := Some(attempts))
  }

  function Or<T>(o: Option<T>, otherwise: T): T {
    match o
    case Some(v) => v
    case None => otherwise
  }

  /** After a merge, a property holds the patch's value when the patch names
      it and its old value otherwise. */
  predicate Merged<T(==)>(named: Option<T>, before: T, after: T) {
    if named.Some? then after == named.value else after == before
  }

  /** `Object.assign(record, patch)`. */
  function Assign(r: SignatureRecord, p: Patch): (r': SignatureRecord)
    ensures Merged(p.customerName, r.customerName, r'.customerName)
    ensures Merged(p.signatureType, r.signatureType, r'.signatureType)
    ensures Merged(p.coMakerName, r.coMakerName, r'.coMakerName)
    ensures Merged(p.agentId, r.agentId, r'.agentId)
    ensures Merged(p.notes, r.notes, r'.notes)
    ensures Merged(p.signatureData, r.signatureData, r'.signatureData)
    ensures Merged(p.timestamp, r.timestamp, r'.timestamp)
    ensures Merged(p.synced, r.synced, r'.synced)
    ensures Merged(p.syncAttempts, r.syncAttempts, r'.syncAttempts)
    ensures p.syncedAt.Some? ==> r'.syncedAt == p.syncedAt
    ensures p.syncedAt.None? ==> r'.syncedAt == r.syncedAt
  {
    SignatureRecord(
      Or(p.customerName, r.customerName),
      Or(p.signatureType, r.signatureType),
      Or(p.coMakerName, r.coMakerName),
      Or(p.agentId, r.agentId),
      Or(p.notes, r.notes),
      Or(p.signatureData, r.signatureData),
      Or(p.timestamp, r.timestamp),
      Or(p.synced, r.synced),
      Or(p.syncAttempts, r.syncAttempts),
      if p.syncedAt.Some? then p.syncedAt else r.syncedAt)
  }

  /** Merging an empty `updates` object changes nothing. */
  lemma AssignEmpty(r: SignatureRecord)
    ensures Assign(r, EmptyPatch) == r
  {
  }

  /** Merging the same `updates` twice is the same as merging it once. */
  lemma AssignIdempotent(r: SignatureRecord, p: Patch)
    ensures Assign(Assign(r, p), p) == Assign(r, p)
  {
  }

  /** The delivery patch marks the record synced, stamps `syncedAt`, and
      leaves the content and the attempt counter as they were. */
  lemma DeliveredPatchEffect(r: SignatureRecord, at: string)
    ensures var r' := Assign(r, DeliveredPatch(at));
      r'.synced && r'.syncedAt == Some(at) && r'.syncAttempts == r.syncAttempts &&
      r' == r.(synced := true, syncedAt := Some(at))
  {
  }

  /** The rejection patch only sets the attempt counter. */
  lemma RejectedPatchEffect(r: SignatureRecord, attempts: int)
    ensures Assign(r, RejectedPatch(attempts)) == r.(syncAttempts := attempts)
  {
  }
}

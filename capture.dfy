/** The capture form of `saveSignature`: the checks on the trimmed form
    fields, the record literal it builds, and the hand-off to the store. */
module Capture {
  import opened Records
  import opened Store

  /** The characters `String.prototype.trim` removes: ECMAScript WhiteSpace
      (tab, vertical tab, form feed, the byte order mark and every space
      separator) and LineTerminator. */
  predicate IsJsWhitespace(c: char) {
    || c == '\t' || c == '\n' || c == '\U{B}' || c == '\U{C}' || c == '\r'
    || c == ' ' || c == '\U{A0}' || c == '\U{1680}'
    || ('\U{2000}' <= c <= '\U{200A}')
    || c == '\U{2028}' || c == '\U{2029}' || c == '\U{202F}' || c == '\U{205F}'
    || c == '\U{3000}' || c == '\U{FEFF}'
  }

  /** The number of white space characters `s` starts with. */
  function LeadingBlanks(s: string): (n: nat)
    ensures n <= |s|
    ensures forall i :: 0 <= i < n ==> IsJsWhitespace(s[i])
    ensures n == |s| || !IsJsWhitespace(s[n])
    decreases |s|
  {
    if |s| > 0 && IsJsWhitespace(s[0]) then 1 + LeadingBlanks(s[1..]) else 0
  }

  /** The number of white space characters `s` ends with. */
  function TrailingBlanks(s: string): (n: nat)
    ensures n <= |s|
    ensures forall i :: |s| - n <= i < |s| ==> IsJsWhitespace(s[i])
    ensures n == |s| || !IsJsWhitespace(s[|s| - n - 1])
    decreases |s|
  {
    if |s| > 0 && IsJsWhitespace(s[|s| - 1]) then 1 + TrailingBlanks(s[..|s| - 1]) else 0
  }

  /** `s.trim()`: cut the leading, then the trailing white space. */
  function Trim(s: string): string {
    var t := s[LeadingBlanks(s)..];
    t[..|t| - TrailingBlanks(t)]
  }

  /** The trimmed string is the slice of `s` left after cutting white space
      from both ends, and it neither starts nor ends with white space. */
  lemma TrimSlice(s: string)
    ensures var a, r := LeadingBlanks(s), Trim(s);
      && a + |r| <= |s|
      && r == s[a..a + |r|]
      && (forall i :: 0 <= i < a ==> IsJsWhitespace(s[i]))
      && (forall i :: a + |r| <= i < |s| ==> IsJsWhitespace(s[i]))
      && (r == [] || (!IsJsWhitespace(r[0]) && !IsJsWhitespace(r[|r| - 1])))
  {
    TrimIsSlice(s);
    TrimSuffixBlank(s);
    TrimEnds(s);
  }

  /** What is left is one contiguous slice of `s`. */
  lemma TrimIsSlice(s: string)
    ensures LeadingBlanks(s) + |Trim(s)| <= |s|
    ensures Trim(s) == s[LeadingBlanks(s)..LeadingBlanks(s) + |Trim(s)|]
  {
    var a := LeadingBlanks(s);
    var t := s[a..];
    assert Trim(s) == t[..|t| - TrailingBlanks(t)];
  }

  /** Everything after that slice is white space. */
  lemma TrimSuffixBlank(s: string)
    ensures forall i :: LeadingBlanks(s) + |Trim(s)| <= i < |s| ==> IsJsWhitespace(s[i])
  {
    var a := LeadingBlanks(s);
    var t := s[a..];
    var k := |t| - TrailingBlanks(t);
    assert |Trim(s)| == k;
    forall i | a + k <= i < |s| ensures IsJsWhitespace(s[i]) {
      assert s[i] == t[i - a];
    }
  }

  /** The slice neither starts nor ends with white space. */
  lemma TrimEnds(s: string)
    ensures Trim(s) == [] || (!IsJsWhitespace(Trim(s)[0]) && !IsJsWhitespace(Trim(s)[|Trim(s)| - 1]))
  {
    var a := LeadingBlanks(s);
    var t := s[a..];
    var k := |t| - TrailingBlanks(t);
    var r := Trim(s);
    assert r == t[..k];
    if r != [] {
      assert r[0] == t[0] && r[k - 1] == t[k - 1];
    }
  }

  /** Trimming twice is trimming once. */
  lemma TrimIdempotent(s: string)
    ensures Trim(Trim(s)) == Trim(s)
  {
    var r := Trim(s);
    TrimSlice(s);
    assert LeadingBlanks(r) == 0;
    assert r[0..] == r;
    assert TrailingBlanks(r) == 0;
  }

  /** A field trims to the empty string exactly when it is all white space. */
  lemma TrimEmptyIffBlank(s: string)
    ensures Trim(s) == [] <==> forall i :: 0 <= i < |s| ==> IsJsWhitespace(s[i])
  {
    TrimSlice(s);
  }

  /** The raw values of the form's inputs. */
  datatype CaptureForm = CaptureForm(
    customerName: string,
    signatureType: string,
    coMakerName: string,
    agentId: string,
    notes: string)

  /** The four refusals, each with its own message. */
  datatype CaptureError =
    | MissingCustomerName  // "Please enter customer name"
    | MissingSignatureType // "Please select signature type"
    | MissingCoMakerName   // "Please enter co-maker name"
    | MissingSignature     // "Please provide a signature"

  const CoMakerType := "Co-maker"

  /** The checks of `saveSignature` in their order, and the record it builds.
      `signatureType` is a select's value and is not trimmed; `signatureData`
      and `timestamp` are the canvas image and the clock reading, taken only
      once the checks pass. */
  function BuildSignature(form: CaptureForm, hasSignature: bool, signatureData: string, timestamp: string)
    : (r: Result<SignatureRecord, CaptureError>)
    ensures r.Ok? <==>
      && Trim(form.customerName) != ""
      && form.signatureType != ""
      && (form.signatureType == CoMakerType ==> Trim(form.coMakerName) != "")
      && hasSignature
    ensures r == Err(MissingCustomerName) <==> Trim(form.customerName) == ""
    ensures r == Err(MissingSignatureType) <==> Trim(form.customerName) != "" && form.signatureType == ""
    ensures r == Err(MissingCoMakerName) <==>
      Trim(form.customerName) != "" && form.signatureType == CoMakerType && Trim(form.coMakerName) == ""
    ensures r.Ok? ==>
      && r.value.customerName == Trim(form.customerName)
      && r.value.signatureType == form.signatureType
      && r.value.agentId == Trim(form.agentId)
      && r.value.notes == Trim(form.notes)
      && r.value.signatureData == signatureData
      && r.value.timestamp == timestamp
    ensures r.Ok? ==> !r.value.synced && r.value.syncAttempts == 0 && r.value.syncedAt == None
    ensures r.Ok? ==> r.value.coMakerName == if form.signatureType == CoMakerType then Trim(form.coMakerName) else ""
  {
    var customerName := Trim(form.customerName);
    var coMakerName := Trim(form.coMakerName);
    if customerName == "" then Err(MissingCustomerName)
    else if form.signatureType == "" then Err(MissingSignatureType)
    else if form.signatureType == CoMakerType && coMakerName == "" then Err(MissingCoMakerName)
    else if !hasSignature then Err(MissingSignature)
    else Ok(SignatureRecord(
      customerName,
      form.signatureType,
      if form.signatureType == CoMakerType then coMakerName else "",
      Trim(form.agentId),
      Trim(form.notes),
      signatureData,
      timestamp,
      false,
      0,
      None))
  }

  /** A built record names a co-maker exactly when it is a co-maker
      signature, and its customer name is non-blank and trimmed. */
  lemma BuiltRecordInvariant(form: CaptureForm, hasSignature: bool, signatureData: string, timestamp: string)
    requires BuildSignature(form, hasSignature, signatureData, timestamp).Ok?
    ensures var rec := BuildSignature(form, hasSignature, signatureData, timestamp).value;
      && (rec.coMakerName != "" <==> rec.signatureType == CoMakerType)
      && rec.customerName != ""
      && Trim(rec.customerName) == rec.customerName
      && exists i :: 0 <= i < |rec.customerName| && !IsJsWhitespace(rec.customerName[i])
  {
    var rec := BuildSignature(form, hasSignature, signatureData, timestamp).value;
    TrimIdempotent(form.customerName);
    TrimEmptyIffBlank(rec.customerName);
  }

  datatype SaveError = Invalid(reason: CaptureError) | NotSaved(cause: StoreError)

  /** `saveSignature` up to the local save: a refused form never reaches the
      store; an accepted one is added with `saveToIndexedDB`. */
  method SaveSignature(store: SignatureStore, form: CaptureForm, hasSignature: bool,
                       signatureData: string, timestamp: string, fails: bool)
    returns (res: Result<int, SaveError>)
    requires store.Valid()
    modifies store
    ensures store.Valid()
    ensures BuildSignature(form, hasSignature, signatureData, timestamp).Err? ==>
      && res == Err(Invalid(BuildSignature(form, hasSignature, signatureData, timestamp).error))
      && store.records == old(store.records) && store.nextKey == old(store.nextKey)
    ensures res.Ok? ==>
      && BuildSignature(form, hasSignature, signatureData, timestamp).Ok?
      && res.value == old(store.nextKey)
      && res.value !in old(store.records)
      && store.nextKey == res.value + 1
      && store.records == old(store.records)[res.value := BuildSignature(form, hasSignature, signatureData, timestamp).value]
    ensures BuildSignature(form, hasSignature, signatureData, timestamp).Ok? && old(store.nextKey) > MaxGeneratedKey ==>
      res == Err(NotSaved(ConstraintError))
    ensures BuildSignature(form, hasSignature, signatureData, timestamp).Ok? && old(store.nextKey) <= MaxGeneratedKey && fails ==>
      res == Err(NotSaved(StorageFault))
    ensures res.Err? ==> store.records == old(store.records) && store.nextKey == old(store.nextKey)
    ensures (BuildSignature(form, hasSignature, signatureData, timestamp).Ok? && !fails &&
      old(store.nextKey) <= MaxGeneratedKey) ==> res.Ok?
  {
    var built := BuildSignature(form, hasSignature, signatureData, timestamp);
    if built.Err? {
      return Err(Invalid(built.error));
    }
    var added := store.Add(built.value, fails);
    if added.Err? {
      return Err(NotSaved(added.error));
    }
    res := Ok(added.value);
  }
}

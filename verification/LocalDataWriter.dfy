/**
 The writing and reading loops over one collection: `prepareLocalDataContent`,
 `verifyStoredRecord` and `decodeLocalDataSnapshots`, with their running byte
 budgets, proved against the order-free definitions of `LocalDataContent`.
 */
module LocalDataWriter {
  import opened Basics
  import opened LocalDataContent
  import opened LocalDataRoundTrip

  lemma TotalBytesOfPush(stored: seq<StoredRecord>, record: StoredRecord)
    ensures TotalBytes(stored + [record]) == TotalBytes(stored) + record.payloadBytes
  {
  }

  lemma {:induction false} TotalBytesOfPrefix(stored: seq<StoredRecord>, n: nat)
    requires n <= |stored|
    requires forall i :: 0 <= i < |stored| ==> stored[i].payloadBytes >= 0
    ensures 0 <= TotalBytes(stored[..n]) <= TotalBytes(stored)
  {
    if n < |stored| {
      assert stored[..|stored| - 1][..n] == stored[..n];
      TotalBytesOfPrefix(stored[..|stored| - 1], n);
    } else {
      assert stored[..n] == stored;
      if n > 0 {
        assert stored[..n - 1][..n - 1] == stored[..n - 1];
        TotalBytesOfPrefix(stored[..n - 1], n - 1);
      }
    }
  }

  /** Why the writer's loop refuses a list of records. */
  predicate RecordsRefusedFor(definition: Definition, codec: Codec, records: seq<LocalRecord>, nonces: nat -> nat,
                              failure: Failure)
  {
    match failure
    case InvalidIdentifier => !AllStorable(definition, codec, records, nonces)
    case DuplicateIdentifier => !DistinctIdentifiers(records)
    case EncodingFailed => exists i ::
        0 <= i < |records| && codec.encode(RecordInput(definition, records[i], nonces(i))).None?
    case InvalidCodec => records != [] && !BudgetsDeclared(definition, codec)
    case Quota =>
        !AllStorable(definition, codec, records, nonces)
            || !WithinCollectionBudget(definition, codec, StoredForms(definition, codec, records, nonces))
    case _ => false
  }

  /** What each refusal of the writer means for the document it refused. */
  predicate RefusedFor(definition: Definition, codec: Codec, document: Json, nonces: nat -> nat, failure: Failure)
  {
    var records := definition.records(document);
    var bytes := ByteLength(definition.serialize(document));
    || (failure == Quota && bytes > definition.maximumBytes)
    || (failure == RecordLimit && (|records| > definition.maximumRecords || |records| > MAX_RECORDS_PER_COLLECTION))
    || RecordsRefusedFor(definition, codec, records, nonces, failure)
    || (AllStorable(definition, codec, records, nonces)
        && var stored := StoredForms(definition, codec, records, nonces);
        || (failure == DuplicateIdentifier && !DistinctLookupKeys(stored))
        || (failure == InvalidCodec
            && !IsDigest(CollectionDigest(codec, definition.id, definition.schemaVersion, bytes, stored))))
  }

  predicate WithinCollectionBudget(definition: Definition, codec: Codec, stored: seq<StoredRecord>)
  {
    stored != [] ==>
      BudgetsDeclared(definition, codec) && TotalBytes(stored) <= CollectionBudget(definition, codec).value
  }

  /** Everything the writer's loop has established once the first `n` records went in. */
  ghost predicate EncodedUpTo(definition: Definition, codec: Codec, records: seq<LocalRecord>, nonces: nat -> nat,
                              n: nat, stored: seq<StoredRecord>)
  {
    && n <= |records|
    && AllStorable(definition, codec, records[..n], nonces)
    && stored == StoredForms(definition, codec, records[..n], nonces)
    && DistinctIdentifiers(records[..n])
    && WithinCollectionBudget(definition, codec, stored)
  }

  function IdentifiersBefore(records: seq<LocalRecord>, n: nat): set<Text>
    requires n <= |records|
  {
    set i | 0 <= i < n :: Trim(records[i].id)
  }

  lemma OneMoreStorable(definition: Definition, codec: Codec, records: seq<LocalRecord>, nonces: nat -> nat, n: nat)
    requires n < |records| && RecordStorable(definition, codec, records[n], nonces(n))
    requires AllStorable(definition, codec, records[..n], nonces)
    ensures AllStorable(definition, codec, records[..n + 1], nonces)
  {
    hide RecordStorable;
    forall i | 0 <= i < n + 1 ensures RecordStorable(definition, codec, records[..n + 1][i], nonces(i)) {
      assert i < n ==> RecordStorable(definition, codec, records[..n][i], nonces(i));
    }
  }

  lemma OneMoreStored(definition: Definition, codec: Codec, records: seq<LocalRecord>, nonces: nat -> nat, n: nat,
                      stored: seq<StoredRecord>)
    requires n < |records| && RecordStorable(definition, codec, records[n], nonces(n))
    requires AllStorable(definition, codec, records[..n], nonces)
        && AllStorable(definition, codec, records[..n + 1], nonces)
    requires stored == StoredForms(definition, codec, records[..n], nonces)
    ensures StoredForms(definition, codec, records[..n + 1], nonces)
        == stored + [StoredForm(definition, codec, records[n], n, nonces(n))]
  {
    hide RecordStorable, StoredForm, AllStorable, StoredForms;
    var longer := records[..n + 1];
    var all := StoredForms(definition, codec, longer, nonces);
    forall i | 0 <= i < n ensures all[i] == stored[i] {
      assert longer[i] == records[..n][i];
    }
  }

  lemma OneMoreIdentifier(records: seq<LocalRecord>, n: nat)
    requires n < |records| && DistinctIdentifiers(records[..n]) && Trim(records[n].id) !in IdentifiersBefore(records, n)
    ensures DistinctIdentifiers(records[..n + 1])
    ensures IdentifiersBefore(records, n + 1) == IdentifiersBefore(records, n) + {Trim(records[n].id)}
  {
    hide Trim;
    var longer := records[..n + 1];
    forall i, j | 0 <= i < j < |longer| ensures Trim(longer[i].id) != Trim(longer[j].id) {
      assert j < n ==> longer[j] == records[..n][j] && longer[i] == records[..n][i];
      assert Trim(longer[i].id) in IdentifiersBefore(records, n);
    }
  }

  /** A prefix over the collection budget condemns the whole list. */
  lemma PrefixOverBudget(definition: Definition, codec: Codec, records: seq<LocalRecord>, nonces: nat -> nat, n: nat,
                         stored: seq<StoredRecord>)
    requires 0 < n <= |records| && AllStorable(definition, codec, records[..n], nonces)
    requires stored == StoredForms(definition, codec, records[..n], nonces)
    requires BudgetsDeclared(definition, codec) && TotalBytes(stored) > CollectionBudget(definition, codec).value
    ensures RecordsRefusedFor(definition, codec, records, nonces, Quota)
  {
    hide BoundedIdentifier, EncodedByteLimit, RecordStorable, CollectionBudget, TotalBytes;
    if AllStorable(definition, codec, records, nonces) {
      var all := StoredForms(definition, codec, records, nonces);
      forall i | 0 <= i < n ensures all[i] == stored[i] {
        assert records[..n][i] == records[i];
      }
      assert all[..n] == stored;
      hide StoredForms, AllStorable;
      TotalBytesOfPrefix(all, n);
    }
  }

  method EncodeRecords(definition: Definition, codec: Codec, records: seq<LocalRecord>, nonces: nat -> nat)
    returns (r: Result<seq<StoredRecord>, Failure>)
    ensures r.Ok? ==> EncodedUpTo(definition, codec, records, nonces, |records|, r.value)
    ensures r.Err? ==> RecordsRefusedFor(definition, codec, records, nonces, r.error)
  {
    hide Trim, RecordStorable, StoredForm, IdentifiersBefore, DistinctIdentifiers;
    var seen: set<Text> := {};
    var stored: seq<StoredRecord> := [];
    var encodedBytes := 0;
    NothingEncodedYet(definition, codec, records, nonces);
    for ordinal := 0 to |records|
      invariant EncodedUpTo(definition, codec, records, nonces, ordinal, stored)
      invariant encodedBytes == TotalBytes(stored)
      invariant seen == IdentifiersBefore(records, ordinal)
    {
      var step := EncodeRecord(definition, codec, records[ordinal], ordinal, nonces(ordinal), seen);
      if step.Err? {
        OneBadRecord(definition, codec, records, nonces, ordinal, step.error);
        return Err(step.error);
      }
      OneMoreStorable(definition, codec, records, nonces, ordinal);
      OneMoreStored(definition, codec, records, nonces, ordinal, stored);
      OneMoreIdentifier(records, ordinal);
      TotalBytesOfPush(stored, step.value);
      seen := seen + {Trim(records[ordinal].id)};
      encodedBytes := encodedBytes + step.value.payloadBytes;
      stored := stored + [step.value];
      if encodedBytes > CollectionBudget(definition, codec).value {
        PrefixOverBudget(definition, codec, records, nonces, ordinal + 1, stored);
        return Err(Quota);
      }
    }
    return Ok(stored);
  }

  lemma NothingEncodedYet(definition: Definition, codec: Codec, records: seq<LocalRecord>, nonces: nat -> nat)
    ensures EncodedUpTo(definition, codec, records, nonces, 0, [])
    ensures IdentifiersBefore(records, 0) == {}
  {
  }

  /** What one refused record says about the list it is part of. */
  lemma OneBadRecord(definition: Definition, codec: Codec, records: seq<LocalRecord>, nonces: nat -> nat, n: nat,
                     failure: Failure)
    requires n < |records|
        && RecordRefusedFor(definition, codec, records[n], nonces(n), IdentifiersBefore(records, n), failure)
    ensures RecordsRefusedFor(definition, codec, records, nonces, failure)
  {
  }

  predicate RecordRefusedFor(definition: Definition, codec: Codec, record: LocalRecord, nonce: nat, seen: set<Text>,
                             failure: Failure)
  {
    match failure
    case InvalidIdentifier => !RecordStorable(definition, codec, record, nonce)
    case DuplicateIdentifier => Trim(record.id) in seen
    case EncodingFailed => codec.encode(RecordInput(definition, record, nonce)).None?
    case InvalidCodec => !BudgetsDeclared(definition, codec)
    case Quota => !RecordStorable(definition, codec, record, nonce)
    case _ => false
  }

  /** The body of the writer's loop, for one record that arrives after the identifiers in `seen`. */
  method EncodeRecord(definition: Definition, codec: Codec, record: LocalRecord, ordinal: nat, nonce: nat,
                      seen: set<Text>)
    returns (r: Result<StoredRecord, Failure>)
    ensures r.Ok? ==> RecordStorable(definition, codec, record, nonce) && Trim(record.id) !in seen
    ensures r.Ok? ==> r.value == StoredForm(definition, codec, record, ordinal, nonce)
    ensures r.Ok? ==> BudgetsDeclared(definition, codec)
    ensures r.Err? ==> RecordRefusedFor(definition, codec, record, nonce, seen, r.error)
  {
    var id := BoundedIdentifier(record.id, MAX_IDENTIFIER_LENGTH);
    if id.None? {
      return Err(InvalidIdentifier);
    }
    if id.value in seen {
      return Err(DuplicateIdentifier);
    }
    var encoded := codec.encode(EncodeInput(definition.id, id.value, record.value, definition.maximumBytes, nonce));
    if encoded.None? {
      return Err(EncodingFailed);
    }
    var lookupKey := BoundedIdentifier(encoded.value.lookupKey, MAX_IDENTIFIER_LENGTH);
    if lookupKey.None? {
      return Err(InvalidIdentifier);
    }
    var recordBudget := RecordBudget(definition, codec);
    if recordBudget.None? {
      return Err(InvalidCodec);
    }
    var payloadBytes := ByteLength(encoded.value.payload);
    if payloadBytes > recordBudget.value {
      return Err(Quota);
    }
    if CollectionBudget(definition, codec).None? {
      return Err(InvalidCodec);
    }
    return Ok(StoredRecord((definition.id, lookupKey.value), definition.id, lookupKey.value, ordinal, codec.id,
                           encoded.value.payload, payloadBytes));
  }

  /** The whole list cannot be admissible once the loop refused it. */
  lemma RefusedRecordsAreNotAdmissible(definition: Definition, codec: Codec, document: Json, nonces: nat -> nat,
                                       failure: Failure)
    requires RecordsRefusedFor(definition, codec, definition.records(document), nonces, failure)
    ensures !Admissible(definition, codec, document, nonces)
  {
  }

  method PrepareLocalDataContent(definition: Definition, codec: Codec, input: Json, nonces: nat -> nat)
    returns (r: Result<Content, Failure>)
    ensures r.Ok? <==> Prepared(definition, codec, input, nonces).Some?
    ensures r.Ok? ==> Some(r.value) == Prepared(definition, codec, input, nonces)
    ensures r == Err(InvalidDocument) <==> definition.normalize(input).None?
    ensures r.Err? && definition.normalize(input).Some? ==>
      RefusedFor(definition, codec, definition.normalize(input).value, nonces, r.error)
  {
    hide BoundedIdentifier, EncodedByteLimit, Trim, CollectionDigest, TotalBytes, RecordStorable, IsDigest;
    var normal := definition.normalize(input);
    if normal.None? {
      return Err(InvalidDocument);
    }
    var document := normal.value;
    var serializedBytes := ByteLength(definition.serialize(document));
    if serializedBytes > definition.maximumBytes {
      return Err(Quota);
    }
    var records := definition.records(document);
    if |records| > definition.maximumRecords || |records| > MAX_RECORDS_PER_COLLECTION {
      return Err(RecordLimit);
    }
    var encoded := EncodeRecords(definition, codec, records, nonces);
    if encoded.Err? {
      RefusedRecordsAreNotAdmissible(definition, codec, document, nonces, encoded.error);
      return Err(encoded.error);
    }
    var stored := encoded.value;
    assert records[..|records|] == records;
    if exists i, j :: 0 <= i < j < |stored| && stored[i].lookupKey == stored[j].lookupKey {
      return Err(DuplicateIdentifier);
    }
    var digest := CollectionDigest(codec, definition.id, definition.schemaVersion, serializedBytes, stored);
    if !IsDigest(digest) {
      return Err(InvalidCodec);
    }
    return Ok(Content(document, stored, serializedBytes, digest));
  }

  /** One record against what was read before it: its shape, its key and the bytes still allowed. */
  method VerifyStoredRecord(record: StoredRecord, definition: Definition, codec: Text, lookupKeys: set<Text>,
                            remainingBytes: int)
    returns (ok: bool, keys: set<Text>)
    ensures ok <==>
      RecordShape(definition, codec, record) && record.lookupKey !in lookupKeys && record.payloadBytes <= remainingBytes
    ensures keys == if ok then lookupKeys + {record.lookupKey} else lookupKeys
  {
    keys := lookupKeys;
    ok := false;
    if record.collection != definition.id || record.key != (definition.id, record.lookupKey)
       || record.lookupKey == [] || |record.lookupKey| > MAX_IDENTIFIER_LENGTH || HasControl(record.lookupKey)
       || record.lookupKey in lookupKeys
       || record.ordinal < 0 || record.ordinal >= definition.maximumRecords || record.codec != codec
       || record.payloadBytes < 0 || record.payloadBytes > remainingBytes || |record.payload| > remainingBytes
    {
      return;
    }
    var actualBytes := ByteLength(record.payload);
    if record.payloadBytes != actualBytes || actualBytes > remainingBytes {
      return;
    }
    keys := lookupKeys + {record.lookupKey};
    ok := true;
  }

  function Smaller(a: int, b: int): int { if a < b then a else b }

  function KeysBefore(records: seq<StoredRecord>, n: nat): set<Text>
    requires n <= |records|
  {
    set i | 0 <= i < n :: records[i].lookupKey
  }

  /** Everything the reader's loop knows about the first `n` records. */
  ghost predicate VerifiedUpTo(definition: Definition, codec: Codec, records: seq<StoredRecord>, n: nat)
  {
    n <= |records| && Verifiable(definition, codec, records[..n])
  }

  /** Well-formed records with distinct keys, each within one bound and together within another. */
  predicate Within(definition: Definition, codec: Text, perRecord: nat, total: nat, records: seq<StoredRecord>)
  {
    && (forall i :: 0 <= i < |records| ==>
        RecordShape(definition, codec, records[i]) && records[i].payloadBytes <= perRecord)
    && DistinctLookupKeys(records)
    && TotalBytes(records) <= total
  }

  lemma VerifiableIsWithin(definition: Definition, codec: Codec, records: seq<StoredRecord>)
    requires BudgetsDeclared(definition, codec)
    ensures Verifiable(definition, codec, records)
      <==> Within(definition, codec.id, RecordBudget(definition, codec).value,
                  CollectionBudget(definition, codec).value, records)
  {
  }

  lemma OneMoreWithin(definition: Definition, codec: Text, perRecord: nat, total: nat, records: seq<StoredRecord>,
                      n: nat)
    requires n < |records| && Within(definition, codec, perRecord, total, records[..n])
    requires RecordShape(definition, codec, records[n]) && records[n].lookupKey !in KeysBefore(records, n)
    requires records[n].payloadBytes <= Smaller(perRecord, total - TotalBytes(records[..n]))
    ensures Within(definition, codec, perRecord, total, records[..n + 1])
    ensures TotalBytes(records[..n + 1]) == TotalBytes(records[..n]) + records[n].payloadBytes
    ensures KeysBefore(records, n + 1) == KeysBefore(records, n) + {records[n].lookupKey}
  {
    hide RecordShape;
    var longer := records[..n + 1];
    assert longer == records[..n] + [records[n]];
    TotalBytesOfPush(records[..n], records[n]);
    forall i, j | 0 <= i < j < |longer| ensures longer[i].lookupKey != longer[j].lookupKey {
      assert j < n ==> longer[j] == records[..n][j] && longer[i] == records[..n][i];
      assert longer[i].lookupKey in KeysBefore(records, n);
    }
  }

  /**
   A record the running check refuses could not be part of any collection within
   the bounds: prefix budgets refuse nothing the totals allow.
   */
  lemma NotWithin(definition: Definition, codec: Text, perRecord: nat, total: nat, records: seq<StoredRecord>, n: nat)
    requires n < |records|
    requires !RecordShape(definition, codec, records[n])
      || records[n].lookupKey in KeysBefore(records, n)
      || records[n].payloadBytes > Smaller(perRecord, total - TotalBytes(records[..n]))
    ensures !Within(definition, codec, perRecord, total, records)
  {
    if Within(definition, codec, perRecord, total, records) {
      assert records[..n + 1] == records[..n] + [records[n]];
      TotalBytesOfPush(records[..n], records[n]);
      forall i | 0 <= i < |records| ensures records[i].payloadBytes >= 0 {
        assert RecordShape(definition, codec, records[i]);
      }
      TotalBytesOfPrefix(records, n + 1);
    }
  }

  lemma OneMoreVerified(definition: Definition, codec: Codec, records: seq<StoredRecord>, n: nat)
    requires n < |records| && VerifiedUpTo(definition, codec, records, n)
    requires BudgetsDeclared(definition, codec) && RecordShape(definition, codec.id, records[n])
        && records[n].lookupKey !in KeysBefore(records, n)
    requires records[n].payloadBytes
        <= Smaller(RecordBudget(definition, codec).value,
                   CollectionBudget(definition, codec).value - TotalBytes(records[..n]))
    ensures VerifiedUpTo(definition, codec, records, n + 1)
    ensures TotalBytes(records[..n + 1]) == TotalBytes(records[..n]) + records[n].payloadBytes
    ensures KeysBefore(records, n + 1) == KeysBefore(records, n) + {records[n].lookupKey}
  {
    hide RecordShape, EncodedByteLimit, Verifiable, Within;
    VerifiableIsWithin(definition, codec, records[..n]);
    VerifiableIsWithin(definition, codec, records[..n + 1]);
    OneMoreWithin(definition, codec.id, RecordBudget(definition, codec).value,
                  CollectionBudget(definition, codec).value, records, n);
  }

  lemma NotVerifiable(definition: Definition, codec: Codec, records: seq<StoredRecord>, n: nat)
    requires n < |records| && BudgetsDeclared(definition, codec)
    requires !RecordShape(definition, codec.id, records[n])
      || records[n].lookupKey in KeysBefore(records, n)
      || records[n].payloadBytes > Smaller(RecordBudget(definition, codec).value,
                                           CollectionBudget(definition, codec).value - TotalBytes(records[..n]))
    ensures !Verifiable(definition, codec, records)
  {
    hide RecordShape, EncodedByteLimit, Verifiable, Within;
    VerifiableIsWithin(definition, codec, records);
    NotWithin(definition, codec.id, RecordBudget(definition, codec).value, CollectionBudget(definition, codec).value,
              records, n);
  }

  method VerifyStoredRecords(definition: Definition, codec: Codec, records: seq<StoredRecord>)
    returns (failure: Option<Failure>)
    ensures failure.None? <==> Verifiable(definition, codec, records)
    ensures failure.Some? ==>
      failure.value == if BudgetsDeclared(definition, codec) then IntegrityFailure else InvalidCodec
  {
    hide RecordShape, EncodedByteLimit, KeysBefore, Verifiable, RecordBudget, CollectionBudget;
    var lookupKeys: set<Text> := {};
    var encodedBytes := 0;
    NothingVerifiedYet(definition, codec, records);
    for n := 0 to |records|
      invariant VerifiedUpTo(definition, codec, records, n)
      invariant encodedBytes == TotalBytes(records[..n])
      invariant lookupKeys == KeysBefore(records, n)
    {
      var recordBudget, collectionBudget := RecordBudget(definition, codec), CollectionBudget(definition, codec);
      if recordBudget.None? || collectionBudget.None? {
        NeverWithoutBudgets(definition, codec, records);
        return Some(InvalidCodec);
      }
      var remaining := Smaller(recordBudget.value, collectionBudget.value - encodedBytes);
      var ok, keys := VerifyStoredRecord(records[n], definition, codec.id, lookupKeys, remaining);
      if !ok {
        NotVerifiable(definition, codec, records, n);
        return Some(IntegrityFailure);
      }
      OneMoreVerified(definition, codec, records, n);
      lookupKeys := keys;
      encodedBytes := encodedBytes + records[n].payloadBytes;
    }
    assert records[..|records|] == records;
    return None;
  }

  lemma NothingVerifiedYet(definition: Definition, codec: Codec, records: seq<StoredRecord>)
    ensures VerifiedUpTo(definition, codec, records, 0)
    ensures TotalBytes(records[..0]) == 0 && KeysBefore(records, 0) == {}
  {
  }

  lemma NeverWithoutBudgets(definition: Definition, codec: Codec, records: seq<StoredRecord>)
    requires records != [] && !BudgetsDeclared(definition, codec)
    ensures !Verifiable(definition, codec, records)
  {
  }

  method DecodeLocalDataSnapshot(definition: Definition, codec: Codec, manifest: Manifest, records: seq<StoredRecord>)
    returns (r: Result<Json, Failure>)
    ensures r.Ok? <==> Decoded(definition, codec, manifest, records).Some?
    ensures r.Ok? ==> Some(r.value) == Decoded(definition, codec, manifest, records)
    ensures r.Err? ==> r.error == IntegrityFailure || (r.error == InvalidCodec && !BudgetsDeclared(definition, codec))
  {
    hide Verifiable, ManifestReadable, CollectionDigest, SortByOrdinal, BudgetsDeclared, DecodedRecords, AllDecodable,
        OrdinalsInPlace;
    if !ManifestReadable(definition, manifest) || manifest.codec != codec.id
       || |records| != manifest.recordCount || |records| > definition.maximumRecords
    {
      if |records| > definition.maximumRecords {
        TooManyRecords(definition, manifest, records);
      }
      return Err(IntegrityFailure);
    }
    var failure := VerifyStoredRecords(definition, codec, records);
    if failure.Some? {
      return Err(failure.value);
    }
    var ordered := SortByOrdinal(records);
    if !OrdinalsInPlace(ordered)
       || CollectionDigest(codec, definition.id, manifest.schemaVersion, manifest.serializedBytes,
                           ordered) != manifest.digest
       || !AllDecodable(definition, codec, ordered)
    {
      return Err(IntegrityFailure);
    }
    var document :=
        definition.normalize(definition.join(DecodedRecords(definition, codec, ordered), manifest.schemaVersion));
    if document.None? {
      return Err(IntegrityFailure);
    }
    var bytes := ByteLength(definition.serialize(document.value));
    if bytes > definition.maximumBytes
        || (manifest.schemaVersion == definition.schemaVersion && bytes != manifest.serializedBytes) {
      return Err(IntegrityFailure);
    }
    return Ok(document.value);
  }

  /** A readable manifest already keeps the record count below the definition's maximum. */
  lemma TooManyRecords(definition: Definition, manifest: Manifest, records: seq<StoredRecord>)
    requires |records| > definition.maximumRecords
    ensures !ManifestReadable(definition, manifest) || |records| != manifest.recordCount
  {
  }

  // ---------- Content prepared in a worker ----------

  /** What the page accepts from its preparation worker, which only ever runs the plaintext codec. */
  predicate TransportOK(definition: Definition, codec: Text, content: Content)
  {
    && content.serializedBytes <= definition.maximumBytes
    && IsDigest(content.digest)
    && |content.records| <= definition.maximumRecords
    && Within(definition, codec, definition.maximumBytes, definition.maximumBytes * 2, content.records)
    && OrdinalsInPlace(content.records)
  }

  method AssertPreparedLocalDataContent(definition: Definition, content: Content, codec: Text) returns (ok: bool)
    ensures ok <==> TransportOK(definition, codec, content)
  {
    hide RecordShape, KeysBefore, Within, IsDigest;
    if content.serializedBytes > definition.maximumBytes || !IsDigest(content.digest)
        || |content.records| > definition.maximumRecords {
      return false;
    }
    var keys: set<Text> := {};
    var bytes := 0;
    var records := content.records;
    assert records[..0] == [];
    assert Within(definition, codec, definition.maximumBytes, definition.maximumBytes * 2, records[..0])
        && KeysBefore(records, 0) == {} by {
      NothingWithin(definition, codec, records);
    }
    for ordinal := 0 to |records|
      invariant Within(definition, codec, definition.maximumBytes, definition.maximumBytes * 2, records[..ordinal])
      invariant bytes == TotalBytes(records[..ordinal])
      invariant keys == KeysBefore(records, ordinal)
      invariant forall i :: 0 <= i < ordinal ==> records[i].ordinal == i
    {
      var valid, next :=
          VerifyStoredRecord(records[ordinal], definition, codec, keys,
                             Smaller(definition.maximumBytes, definition.maximumBytes * 2 - bytes));
      if !valid {
        NotWithin(definition, codec, definition.maximumBytes, definition.maximumBytes * 2, records, ordinal);
        return false;
      }
      if records[ordinal].ordinal != ordinal {
        return false;
      }
      OneMoreWithin(definition, codec, definition.maximumBytes, definition.maximumBytes * 2, records, ordinal);
      keys := next;
      bytes := bytes + records[ordinal].payloadBytes;
    }
    assert records[..|records|] == records;
    return true;
  }

  lemma NothingWithin(definition: Definition, codec: Text, records: seq<StoredRecord>)
    ensures Within(definition, codec, definition.maximumBytes, definition.maximumBytes * 2, records[..0])
    ensures KeysBefore(records, 0) == {}
  {
  }

  /** Under a codec that widens no budget, the transport check lets every honest preparation through. */
  lemma PlaintextPreparationPassesTransport(definition: Definition, codec: Codec, input: Json, nonces: nat -> nat)
    requires codec.encodedBytes.None? && Prepared(definition, codec, input, nonces).Some?
    ensures TransportOK(definition, codec.id, Prepared(definition, codec, input, nonces).value)
  {
    hide Verifiable, StoredForms, AllStorable, RecordShape, IsDigest, TotalBytes, CollectionDigest, Within;
    var records := Prepared(definition, codec, input, nonces).value.records;
    StoredFormsVerify(definition, codec, definition.normalize(input).value, nonces);
    if records != [] {
      VerifiableIsWithinPlain(definition, codec, records);
    } else {
      assert records == records[..0];
      NothingWithin(definition, codec.id, records);
    }
  }

  lemma VerifiableIsWithinPlain(definition: Definition, codec: Codec, records: seq<StoredRecord>)
    requires codec.encodedBytes.None? && Verifiable(definition, codec, records) && records != []
    ensures Within(definition, codec.id, definition.maximumBytes, definition.maximumBytes * 2, records)
  {
  }
}

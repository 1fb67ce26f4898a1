/**
 The stored form of one collection: what `prepareLocalDataContent` writes and
 what `decodeLocalDataSnapshots` reads back from an unordered record store.

 Domain normalisers, the record codec and the integrity digest are function
 fields of `Definition` and `Codec`; the laws a proof relies on are named
 predicates (`LawfulDefinition`, `LawfulCodec`, `InjectiveDigest`).
 */
module LocalDataContent {
  import opened Basics

  const MAX_RECORDS_PER_COLLECTION: nat := 2000
  const MAX_IDENTIFIER_LENGTH: nat := 256
  const MAX_CODEC_LENGTH: nat := 64

  // ---------- Entities ----------

  /** Documents and record values are plain JSON trees. */
  datatype Json =
    | Null | Bool(b: bool) | Number(n: int) | Str(text: Text) | Arr(items: seq<Json>) | Obj(fields: seq<(Text, Json)>)

  datatype LocalRecord = LocalRecord(id: Text, value: Json)

  datatype FileReference = FileReference(digest: Text, byteLength: nat)

  datatype Definition = Definition(
    id: Text,
    legacyKey: Text,
    schemaVersion: nat,
    minimumReadableVersion: nat,
    maximumBytes: nat,
    maximumRecords: nat,
    normalize: Json -> Option<Json>,
    serialize: Json -> Text,
    records: Json -> seq<LocalRecord>,
    join: (seq<LocalRecord>, int) -> Json,
    references: Json -> set<FileReference>)

  datatype EncodeInput = EncodeInput(collection: Text, id: Text, value: Json, maximumBytes: nat, nonce: nat)
  datatype EncodedRecord = EncodedRecord(lookupKey: Text, payload: Text)
  datatype DecodeInput = DecodeInput(collection: Text, lookupKey: Text, payload: Text, maximumBytes: nat)
  datatype RecordContent = RecordContent(lookupKey: Text, ordinal: int, codec: Text, payload: Text, payloadBytes: int)
  datatype DigestInput = DigestInput(collection: Text, schemaVersion: int, serializedBytes: int,
                                     content: seq<RecordContent>)

  datatype Codec = Codec(
    id: Text,
    encodedBytes: Option<(nat, nat) -> int>,
    encode: EncodeInput -> Option<EncodedRecord>,
    decode: DecodeInput -> Option<LocalRecord>,
    digest: DigestInput -> Text,
    fileKey: (Text, Text) -> Text)

  datatype StoredRecord = StoredRecord(
    key: (Text, Text),
    collection: Text,
    lookupKey: Text,
    ordinal: int,
    codec: Text,
    payload: Text,
    payloadBytes: int)

  datatype Source = Empty | LegacyLocalStorage | Application

  datatype Manifest = Manifest(
    collection: Text,
    schemaVersion: int,
    codec: Text,
    revision: int,
    recordCount: int,
    serializedBytes: int,
    digest: Text,
    source: Source,
    updatedAt: nat,
    legacyKey: Text,
    legacyDigest: Option<Text>)

  datatype Content = Content(document: Json, records: seq<StoredRecord>, serializedBytes: nat, digest: Text)

  datatype Failure =
    | InvalidDocument | Quota | RecordLimit | InvalidIdentifier | DuplicateIdentifier | EncodingFailed | InvalidCodec
    | IntegrityFailure

  // ---------- Identifiers ----------

  predicate Whitespace(u: CodeUnit)
  {
    0x09 <= u <= 0x0D || u == 0x20 || u == 0xA0 || u == 0x1680 || 0x2000 <= u <= 0x200A
    || u == 0x2028 || u == 0x2029 || u == 0x202F || u == 0x205F || u == 0x3000 || u == 0xFEFF
  }

  predicate Control(u: CodeUnit) { u < 0x20 || u == 0x7F }

  predicate HasControl(t: Text) { exists i :: 0 <= i < |t| && Control(t[i]) }

  function TrimStart(t: Text): (r: Text)
    ensures r == [] || !Whitespace(r[0])
    ensures (t == [] || !Whitespace(t[0])) ==> r == t
  {
    if t != [] && Whitespace(t[0]) then TrimStart(t[1..]) else t
  }

  function TrimEnd(t: Text): (r: Text)
    ensures r <= t
    ensures r == [] || !Whitespace(r[|r| - 1])
    ensures (t == [] || !Whitespace(t[|t| - 1])) ==> r == t
  {
    if t != [] && Whitespace(t[|t| - 1]) then TrimEnd(t[..|t| - 1]) else t
  }

  function Trim(t: Text): Text { TrimEnd(TrimStart(t)) }

  /** `boundedIdentifier`: the trimmed value, when it is non-empty, short enough and free of control characters. */
  function BoundedIdentifier(value: Text, maximum: nat): (r: Option<Text>)
    ensures r.Some? ==> 0 < |r.value| <= maximum && !HasControl(r.value) && Trim(r.value) == r.value
  {
    var trimmed := Trim(value);
    if trimmed == [] || |trimmed| > maximum || HasControl(trimmed) then None else Some(trimmed)
  }

  predicate Base64UrlUnit(u: CodeUnit)
  {
    0x41 <= u <= 0x5A || 0x61 <= u <= 0x7A || 0x30 <= u <= 0x39 || u == 0x2D || u == 0x5F
  }

  predicate IsDigest(t: Text) { |t| == 43 && forall i :: 0 <= i < |t| ==> Base64UrlUnit(t[i]) }

  // ---------- Byte budgets ----------

  /** The bound a codec declares for encoded text, refused outside its supported range. */
  function EncodedByteLimit(codec: Codec, plaintextBytes: nat, records: nat): (r: Option<nat>)
    ensures r.Some? ==> plaintextBytes <= r.value <= plaintextBytes * 4 + records * 256
  {
    var limit := if codec.encodedBytes.Some? then codec.encodedBytes.value(plaintextBytes, records) else plaintextBytes;
    if limit > MAX_SAFE_INTEGER || limit < plaintextBytes || limit > plaintextBytes * 4 + records * 256
    then None else Some(limit)
  }

  function RecordBudget(definition: Definition, codec: Codec): Option<nat>
  {
    EncodedByteLimit(codec, definition.maximumBytes, 1)
  }

  function CollectionBudget(definition: Definition, codec: Codec): Option<nat>
  {
    EncodedByteLimit(codec, definition.maximumBytes * 2, definition.maximumRecords)
  }

  predicate BudgetsDeclared(definition: Definition, codec: Codec)
  {
    RecordBudget(definition, codec).Some? && CollectionBudget(definition, codec).Some?
  }

  function TotalBytes(records: seq<StoredRecord>): int
  {
    if records == [] then 0 else TotalBytes(records[..|records| - 1]) + records[|records| - 1].payloadBytes
  }

  // ---------- Laws ----------

  function Identified(records: seq<LocalRecord>): (r: seq<LocalRecord>)
    ensures |r| == |records|
  {
    seq(|records|, i requires 0 <= i < |records| => LocalRecord(Trim(records[i].id), records[i].value))
  }

  ghost predicate Normal(definition: Definition, document: Json) { definition.normalize(document) == Some(document) }

  /** Normalising is idempotent, records rebuild their document, and serialisation is injective on normal documents. */
  ghost predicate LawfulDefinition(definition: Definition)
  {
    && (forall x: Json :: definition.normalize(x).Some? ==> Normal(definition, definition.normalize(x).value))
    && (forall d: Json :: Normal(definition, d) ==>
          definition.normalize(definition.join(Identified(definition.records(d)), definition.schemaVersion)) == Some(d))
    && (forall d: Json, e: Json {:trigger definition.serialize(d), definition.serialize(e)} ::
          Normal(definition, d) && Normal(definition, e) && definition.serialize(d) == definition.serialize(e) ==>
            d == e)
  }

  /** Decoding under the stored lookup key returns the encoded identity and value, whatever the nonce. */
  ghost predicate LawfulCodec(codec: Codec)
  {
    forall input: EncodeInput :: codec.encode(input).Some? ==>
      var encoded := codec.encode(input).value;
      var key := BoundedIdentifier(encoded.lookupKey, MAX_IDENTIFIER_LENGTH);
      key.Some? ==>
        codec.decode(DecodeInput(input.collection, key.value, encoded.payload, input.maximumBytes))
            == Some(LocalRecord(input.id, input.value))
  }

  ghost predicate InjectiveDigest(codec: Codec)
  {
    forall x: DigestInput, y: DigestInput {:trigger codec.digest(x), codec.digest(y)} ::
      codec.digest(x) == codec.digest(y) && IsDigest(codec.digest(x)) ==> x.content == y.content
  }

  // ---------- Writer ----------

  function ContentOfRecords(records: seq<StoredRecord>): (r: seq<RecordContent>)
    ensures |r| == |records|
  {
    seq(|records|, i requires 0 <= i < |records| =>
      RecordContent(records[i].lookupKey, records[i].ordinal, records[i].codec, records[i].payload,
                    records[i].payloadBytes))
  }

  function RecordInput(definition: Definition, record: LocalRecord, nonce: nat): EncodeInput
  {
    EncodeInput(definition.id, Trim(record.id), record.value, definition.maximumBytes, nonce)
  }

  /** One record passes: its identifier and lookup key are bounded and its payload fits the single-record budget. */
  predicate RecordStorable(definition: Definition, codec: Codec, record: LocalRecord, nonce: nat)
  {
    && BoundedIdentifier(record.id, MAX_IDENTIFIER_LENGTH).Some?
    && codec.encode(RecordInput(definition, record, nonce)).Some?
    && BoundedIdentifier(codec.encode(RecordInput(definition, record, nonce)).value.lookupKey,
                         MAX_IDENTIFIER_LENGTH).Some?
    && BudgetsDeclared(definition, codec)
    && ByteLength(codec.encode(RecordInput(definition, record, nonce)).value.payload)
        <= RecordBudget(definition, codec).value
  }

  function StoredForm(definition: Definition, codec: Codec, record: LocalRecord, ordinal: nat, nonce: nat): StoredRecord
    requires RecordStorable(definition, codec, record, nonce)
  {
    var encoded := codec.encode(RecordInput(definition, record, nonce)).value;
    var lookupKey := BoundedIdentifier(encoded.lookupKey, MAX_IDENTIFIER_LENGTH).value;
    StoredRecord((definition.id, lookupKey), definition.id, lookupKey, ordinal, codec.id, encoded.payload,
                 ByteLength(encoded.payload))
  }

  predicate AllStorable(definition: Definition, codec: Codec, records: seq<LocalRecord>, nonces: nat -> nat)
  {
    forall i :: 0 <= i < |records| ==> RecordStorable(definition, codec, records[i], nonces(i))
  }

  function StoredForms(definition: Definition, codec: Codec, records: seq<LocalRecord>,
                       nonces: nat -> nat): (r: seq<StoredRecord>)
    requires AllStorable(definition, codec, records, nonces)
    ensures |r| == |records|
    ensures forall i :: 0 <= i < |r| ==> r[i] == StoredForm(definition, codec, records[i], i, nonces(i))
  {
    seq(|records|, i requires 0 <= i < |records| => StoredForm(definition, codec, records[i], i, nonces(i)))
  }

  predicate DistinctIdentifiers(records: seq<LocalRecord>)
  {
    forall i, j :: 0 <= i < j < |records| ==> Trim(records[i].id) != Trim(records[j].id)
  }

  predicate DistinctLookupKeys(records: seq<StoredRecord>)
  {
    forall i, j :: 0 <= i < j < |records| ==> records[i].lookupKey != records[j].lookupKey
  }

  function CollectionDigest(codec: Codec, collection: Text, schemaVersion: int, serializedBytes: int,
                            records: seq<StoredRecord>): Text
  {
    codec.digest(DigestInput(collection, schemaVersion, serializedBytes, ContentOfRecords(records)))
  }

  /** Everything the writer checks about the records of a normal document, with no order of checking. */
  predicate Admissible(definition: Definition, codec: Codec, document: Json, nonces: nat -> nat)
  {
    var records := definition.records(document);
    && ByteLength(definition.serialize(document)) <= definition.maximumBytes
    && |records| <= definition.maximumRecords
    && |records| <= MAX_RECORDS_PER_COLLECTION
    && AllStorable(definition, codec, records, nonces)
    && DistinctIdentifiers(records)
    && var stored := StoredForms(definition, codec, records, nonces);
    && DistinctLookupKeys(stored)
    && (records != [] ==>
        BudgetsDeclared(definition, codec) && TotalBytes(stored) <= CollectionBudget(definition, codec).value)
    && IsDigest(CollectionDigest(codec, definition.id, definition.schemaVersion,
                                 ByteLength(definition.serialize(document)), stored))
  }

  /** What the writer produces for an input, or `None` when it refuses. */
  function Prepared(definition: Definition, codec: Codec, input: Json, nonces: nat -> nat): Option<Content>
  {
    var normal := definition.normalize(input);
    if normal.None? || !Admissible(definition, codec, normal.value, nonces) then None
    else
      var stored := StoredForms(definition, codec, definition.records(normal.value), nonces);
      var bytes := ByteLength(definition.serialize(normal.value));
      Some(Content(normal.value, stored, bytes,
                   CollectionDigest(codec, definition.id, definition.schemaVersion, bytes, stored)))
  }

  function ProposedManifest(definition: Definition, codec: Codec, content: Content, source: Source,
                            legacyDigest: Option<Text>,
                            revision: int, updatedAt: nat): Manifest
  {
    Manifest(definition.id, definition.schemaVersion, codec.id, revision + 1, |content.records|,
             content.serializedBytes,
             content.digest, source, updatedAt, definition.legacyKey, legacyDigest)
  }

  predicate ContentMatches(definition: Definition, codec: Codec, content: Content, manifest: Manifest)
  {
    && manifest.schemaVersion == definition.schemaVersion
    && manifest.codec == codec.id
    && manifest.recordCount == |content.records|
    && manifest.serializedBytes == content.serializedBytes
    && manifest.digest == content.digest
  }

  // ---------- Reader ----------

  /** The order-independent part of `verifyStoredRecord`. */
  predicate RecordShape(definition: Definition, codec: Text, record: StoredRecord)
  {
    && record.collection == definition.id
    && record.key == (definition.id, record.lookupKey)
    && 0 < |record.lookupKey| <= MAX_IDENTIFIER_LENGTH
    && !HasControl(record.lookupKey)
    && 0 <= record.ordinal < definition.maximumRecords
    && record.codec == codec
    && record.payloadBytes == ByteLength(record.payload)
  }

  /** Every record is well formed, keys are distinct, and both budgets hold for the collection as a whole. */
  predicate Verifiable(definition: Definition, codec: Codec, records: seq<StoredRecord>)
  {
    && (forall i :: 0 <= i < |records| ==> RecordShape(definition, codec.id, records[i]))
    && DistinctLookupKeys(records)
    && (records != [] ==>
          && BudgetsDeclared(definition, codec)
          && (forall i :: 0 <= i < |records| ==> records[i].payloadBytes <= RecordBudget(definition, codec).value)
          && TotalBytes(records) <= CollectionBudget(definition, codec).value)
  }

  predicate ManifestReadable(definition: Definition, manifest: Manifest)
  {
    && manifest.collection == definition.id
    && 1 <= manifest.schemaVersion <= definition.schemaVersion
    && definition.minimumReadableVersion <= manifest.schemaVersion
    && 0 < |manifest.codec| <= MAX_CODEC_LENGTH && !HasControl(manifest.codec)
    && 1 <= manifest.revision <= MAX_SAFE_INTEGER
    && 0 <= manifest.recordCount <= definition.maximumRecords
    && 0 <= manifest.serializedBytes <= definition.maximumBytes
    && IsDigest(manifest.digest)
    && manifest.legacyKey == definition.legacyKey
    && (manifest.legacyDigest.Some? ==> IsDigest(manifest.legacyDigest.value))
  }

  function InsertByOrdinal(record: StoredRecord, sorted: seq<StoredRecord>): seq<StoredRecord>
  {
    if sorted == [] || record.ordinal < sorted[0].ordinal then [record] + sorted
    else [sorted[0]] + InsertByOrdinal(record, sorted[1..])
  }

  /**
   The engine's stable `Array.prototype.sort` on ordinals (ties are refused right
   after it, so their order never shows).
   */
  function SortByOrdinal(records: seq<StoredRecord>): seq<StoredRecord>
  {
    if records == [] then [] else InsertByOrdinal(records[0], SortByOrdinal(records[1..]))
  }

  predicate OrdinalsInPlace(records: seq<StoredRecord>)
  {
    forall i :: 0 <= i < |records| ==> records[i].ordinal == i
  }

  function DecodeInputOf(definition: Definition, record: StoredRecord): DecodeInput
  {
    DecodeInput(definition.id, record.lookupKey, record.payload, definition.maximumBytes)
  }

  predicate AllDecodable(definition: Definition, codec: Codec, records: seq<StoredRecord>)
  {
    forall i :: 0 <= i < |records| ==> codec.decode(DecodeInputOf(definition, records[i])).Some?
  }

  function DecodedRecords(definition: Definition, codec: Codec, records: seq<StoredRecord>): (r: seq<LocalRecord>)
    requires AllDecodable(definition, codec, records)
    ensures |r| == |records|
  {
    seq(|records|, i requires 0 <= i < |records| => codec.decode(DecodeInputOf(definition, records[i])).value)
  }

  /** The document held by ordered records, once their digest and reconstruction agree with the manifest. */
  function Rebuilt(definition: Definition, codec: Codec, manifest: Manifest, ordered: seq<StoredRecord>): Option<Json>
  {
    if !OrdinalsInPlace(ordered)
       || CollectionDigest(codec, definition.id, manifest.schemaVersion, manifest.serializedBytes,
                           ordered) != manifest.digest
       || !AllDecodable(definition, codec, ordered)
    then None
    else
      var document :=
          definition.normalize(definition.join(DecodedRecords(definition, codec, ordered), manifest.schemaVersion));
      if document.None? then None
      else
        var bytes := ByteLength(definition.serialize(document.value));
        if bytes > definition.maximumBytes
            || (manifest.schemaVersion == definition.schemaVersion && bytes != manifest.serializedBytes)
        then None else document
  }

  /** What the reader makes of a captured collection whose records arrived in the order `records`. */
  function Decoded(definition: Definition, codec: Codec, manifest: Manifest, records: seq<StoredRecord>): Option<Json>
  {
    if !ManifestReadable(definition, manifest) || manifest.codec != codec.id || |records| != manifest.recordCount
       || !Verifiable(definition, codec, records)
    then None
    else Rebuilt(definition, codec, manifest, SortByOrdinal(records))
  }
}

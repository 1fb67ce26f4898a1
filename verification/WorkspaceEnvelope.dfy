/**
 Sizes of the encrypted record envelope: a 12-byte nonce and an authenticated
 ciphertext of `n + 16` bytes, both in unpadded base64url (section 5 of
 RFC 4648), joined by a dot. Only sizes are modelled; the ciphers are not.
 */
module WorkspaceEnvelope {
  import opened Basics
  import opened LocalDataContent

  const NONCE_BYTES: nat := 12
  const TAG_BYTES: nat := 16

  function CeilDiv(a: nat, b: nat): nat
    requires b > 0
  {
    (a + b - 1) / b
  }

  /** Unpadded base64url: four units per three bytes, and `k + 1` units for a final group of `k` bytes. */
  function Base64UrlLength(bytes: nat): nat
  {
    4 * (bytes / 3) + (if bytes % 3 == 0 then 0 else bytes % 3 + 1)
  }

  /** `decodeBase64url`: whole bytes in a text of this many units. */
  function DecodedSize(units: nat): nat { units * 6 / 8 }

  function EnvelopeBytes(plaintext: nat): nat
  {
    Base64UrlLength(NONCE_BYTES) + 1 + Base64UrlLength(plaintext + TAG_BYTES)
  }

  /** The bound the encrypted codec declares for `records` records of `bytes` plaintext bytes in all. */
  function EncodedBytes(bytes: nat, records: nat): nat
  {
    CeilDiv((bytes + 16 * records) * 4, 3) + 18 * records
  }

  function Sum(sizes: seq<nat>): nat
  {
    if sizes == [] then 0 else Sum(sizes[..|sizes| - 1]) + sizes[|sizes| - 1]
  }

  function EnvelopeSum(sizes: seq<nat>): nat
  {
    if sizes == [] then 0 else EnvelopeSum(sizes[..|sizes| - 1]) + EnvelopeBytes(sizes[|sizes| - 1])
  }

  /**
   Base64url length is four thirds rounded up, is never one more than a multiple
   of four, and decodes to the same byte count.
   */
  lemma Base64UrlSizes(bytes: nat)
    ensures Base64UrlLength(bytes) == CeilDiv(4 * bytes, 3)
    ensures Base64UrlLength(bytes) % 4 != 1
    ensures DecodedSize(Base64UrlLength(bytes)) == bytes
  {
  }

  /**
   The declared bound is never exceeded: any records with `Sum(sizes)` plaintext
   bytes fit, and one record misses it by exactly one byte.
   */
  lemma {:induction false} EnvelopesFitTheirBound(sizes: seq<nat>)
    ensures EnvelopeSum(sizes) <= EncodedBytes(Sum(sizes), |sizes|)
    ensures 3 * EnvelopeSum(sizes) <= (Sum(sizes) + 16 * |sizes|) * 4 + 53 * |sizes|
    ensures |sizes| == 1 ==> EnvelopeSum(sizes) + 1 == EncodedBytes(Sum(sizes), 1)
  {
    if sizes != [] {
      EnvelopesFitTheirBound(sizes[..|sizes| - 1]);
      Base64UrlSizes(sizes[|sizes| - 1] + TAG_BYTES);
      Base64UrlSizes(NONCE_BYTES);
      if |sizes| == 1 {
        assert sizes[..0] == [];
      }
    }
  }

  lemma BoundIsMonotone(bytes: nat, more: nat, records: nat, moreRecords: nat)
    requires bytes <= more && records <= moreRecords
    ensures EncodedBytes(bytes, records) <= EncodedBytes(more, moreRecords)
  {
  }

  /** The declared bound always lies between the plaintext and what `encodedByteLimit` tolerates. */
  lemma BoundIsProportionate(bytes: nat, records: nat)
    ensures bytes <= EncodedBytes(bytes, records) <= bytes * 4 + records * 256
  {
  }

  /** So `encodedByteLimit` accepts it exactly while it is a safe integer. */
  lemma BoundIsInRange(codec: Codec, bytes: nat, records: nat)
    requires codec.encodedBytes.Some? && codec.encodedBytes.value(bytes, records) == EncodedBytes(bytes, records)
    ensures EncodedByteLimit(codec, bytes, records)
      == if EncodedBytes(bytes, records) <= MAX_SAFE_INTEGER then Some(EncodedBytes(bytes, records)) else None
    ensures bytes * 4 + records * 256 <= MAX_SAFE_INTEGER ==> EncodedByteLimit(codec, bytes, records).Some?
  {
    BoundIsProportionate(bytes, records);
  }

  /** Every envelope of an admitted plaintext passes the size gates of the decrypting side. */
  lemma EnvelopePassesDecoderGates(plaintext: nat, maximumBytes: nat)
    requires plaintext <= maximumBytes
    ensures EnvelopeBytes(plaintext) <= EncodedBytes(maximumBytes, 1)
    ensures Base64UrlLength(plaintext + TAG_BYTES) <= CeilDiv((maximumBytes + TAG_BYTES) * 4, 3)
    ensures DecodedSize(Base64UrlLength(plaintext + TAG_BYTES)) == plaintext + TAG_BYTES
    ensures DecodedSize(Base64UrlLength(NONCE_BYTES)) == NONCE_BYTES
  {
  }

  // ---------- Encryption never narrows a collection ----------

  /**
   `sealed` encrypts what `plain` writes: same admission per record,
   envelope-sized payloads, one distinct bounded key per identifier.
   */
  ghost predicate Seals(plain: Codec, sealed: Codec)
  {
    && plain.encodedBytes.None? && sealed.encodedBytes.Some?
    && (forall bytes: nat, records: nat :: sealed.encodedBytes.value(bytes, records) == EncodedBytes(bytes, records))
    && (forall input: EncodeInput :: plain.encode(input).Some? ==>
          && sealed.encode(input).Some?
          && BoundedIdentifier(sealed.encode(input).value.lookupKey, MAX_IDENTIFIER_LENGTH)
              == Some(sealed.encode(input).value.lookupKey)
          && ByteLength(sealed.encode(input).value.payload)
              == EnvelopeBytes(ByteLength(plain.encode(input).value.payload)))
    && (forall a: EncodeInput, b: EncodeInput {:trigger sealed.encode(a), sealed.encode(b)} ::
          sealed.encode(a).Some? && sealed.encode(b).Some? && a.collection == b.collection && a.id != b.id ==>
            sealed.encode(a).value.lookupKey != sealed.encode(b).value.lookupKey)
    && (forall input: DigestInput :: IsDigest(sealed.digest(input)))
  }

  /** The widened bounds of a definition are safe integers. */
  predicate SafelyWidened(definition: Definition)
  {
    && EncodedBytes(definition.maximumBytes, 1) <= MAX_SAFE_INTEGER
    && EncodedBytes(definition.maximumBytes * 2, definition.maximumRecords) <= MAX_SAFE_INTEGER
  }

  function PayloadSizes(records: seq<StoredRecord>): (sizes: seq<nat>)
    requires forall i :: 0 <= i < |records| ==> records[i].payloadBytes >= 0
    ensures |sizes| == |records|
  {
    seq(|records|, i requires 0 <= i < |records| => records[i].payloadBytes)
  }

  lemma {:induction false} SumOfPayloads(records: seq<StoredRecord>)
    requires forall i :: 0 <= i < |records| ==> records[i].payloadBytes >= 0
    ensures TotalBytes(records) == Sum(PayloadSizes(records))
  {
    if records != [] {
      SumOfPayloads(records[..|records| - 1]);
      assert PayloadSizes(records)[..|records| - 1] == PayloadSizes(records[..|records| - 1]);
    }
  }

  lemma {:induction false} SumOfEnvelopes(plain: seq<StoredRecord>, sealed: seq<StoredRecord>)
    requires |plain| == |sealed|
    requires forall i :: 0 <= i < |plain| ==>
      plain[i].payloadBytes >= 0 && sealed[i].payloadBytes == EnvelopeBytes(plain[i].payloadBytes)
    ensures TotalBytes(sealed) == EnvelopeSum(PayloadSizes(plain))
  {
    if plain != [] {
      var n := |plain| - 1;
      SumOfEnvelopes(plain[..n], sealed[..n]);
      assert PayloadSizes(plain)[..n] == PayloadSizes(plain[..n]);
    }
  }

  lemma SealedRecordIsStorable(definition: Definition, plain: Codec, sealed: Codec, record: LocalRecord, nonce: nat)
    requires Seals(plain, sealed) && SafelyWidened(definition)
    requires RecordStorable(definition, plain, record, nonce)
    ensures RecordStorable(definition, sealed, record, nonce)
    ensures StoredForm(definition, sealed, record, 0, nonce).payloadBytes
        == EnvelopeBytes(StoredForm(definition, plain, record, 0, nonce).payloadBytes)
    ensures StoredForm(definition, sealed, record, 0, nonce).lookupKey
        == sealed.encode(RecordInput(definition, record, nonce)).value.lookupKey
  {
    var input := RecordInput(definition, record, nonce);
    assert plain.encode(input).Some?;
    BoundIsProportionate(definition.maximumBytes, 1);
    BoundIsProportionate(definition.maximumBytes * 2, definition.maximumRecords);
    EnvelopePassesDecoderGates(ByteLength(plain.encode(input).value.payload), definition.maximumBytes);
  }

  lemma SealedRecordsAreStorable(definition: Definition, plain: Codec, sealed: Codec, records: seq<LocalRecord>,
                                 nonces: nat -> nat)
    requires Seals(plain, sealed) && SafelyWidened(definition)
    requires AllStorable(definition, plain, records, nonces)
    ensures AllStorable(definition, sealed, records, nonces)
    ensures forall i :: 0 <= i < |records| ==>
      && StoredForms(definition, sealed, records, nonces)[i].payloadBytes
          == EnvelopeBytes(StoredForms(definition, plain, records, nonces)[i].payloadBytes)
      && StoredForms(definition, sealed, records, nonces)[i].lookupKey
          == sealed.encode(RecordInput(definition, records[i], nonces(i))).value.lookupKey
  {
    forall i | 0 <= i < |records|
      ensures RecordStorable(definition, sealed, records[i], nonces(i))
    {
      SealedRecordIsStorable(definition, plain, sealed, records[i], nonces(i));
    }
    forall i | 0 <= i < |records|
      ensures StoredForms(definition, sealed, records, nonces)[i].payloadBytes
          == EnvelopeBytes(StoredForms(definition, plain, records, nonces)[i].payloadBytes)
    {
      SealedRecordIsStorable(definition, plain, sealed, records[i], nonces(i));
    }
  }

  lemma SealedKeysAreDistinct(definition: Definition, plain: Codec, sealed: Codec, records: seq<LocalRecord>,
                              nonces: nat -> nat)
    requires Seals(plain, sealed) && SafelyWidened(definition)
    requires AllStorable(definition, plain, records, nonces) && AllStorable(definition, sealed, records, nonces)
    requires DistinctIdentifiers(records)
    ensures DistinctLookupKeys(StoredForms(definition, sealed, records, nonces))
  {
  }

  lemma SealedTotalFits(definition: Definition, plain: seq<StoredRecord>, sealed: seq<StoredRecord>)
    requires |plain| == |sealed| <= definition.maximumRecords
    requires forall i :: 0 <= i < |plain| ==>
      plain[i].payloadBytes >= 0 && sealed[i].payloadBytes == EnvelopeBytes(plain[i].payloadBytes)
    requires TotalBytes(plain) <= definition.maximumBytes * 2
    ensures TotalBytes(sealed) <= EncodedBytes(definition.maximumBytes * 2, definition.maximumRecords)
  {
    SumOfPayloads(plain);
    SumOfEnvelopes(plain, sealed);
    EnvelopesFitTheirBound(PayloadSizes(plain));
    BoundIsMonotone(TotalBytes(plain), definition.maximumBytes * 2, |plain|, definition.maximumRecords);
  }

  lemma DeclaredBudgets(definition: Definition, plain: Codec, sealed: Codec)
    requires Seals(plain, sealed)
    ensures BudgetsDeclared(definition, sealed) <==> SafelyWidened(definition)
    ensures SafelyWidened(definition) ==>
      && CollectionBudget(definition, sealed)
          == Some(EncodedBytes(definition.maximumBytes * 2, definition.maximumRecords))
      && RecordBudget(definition, sealed) == Some(EncodedBytes(definition.maximumBytes, 1))
      && CollectionBudget(definition, plain) == Some(definition.maximumBytes * 2)
  {
    BoundIsInRange(sealed, definition.maximumBytes, 1);
    BoundIsInRange(sealed, definition.maximumBytes * 2, definition.maximumRecords);
    BoundIsProportionate(definition.maximumBytes * 2, definition.maximumRecords);
  }

  lemma SafelyWidenedIsAdmitted(definition: Definition, plain: Codec, sealed: Codec, input: Json, nonces: nat -> nat)
    requires Seals(plain, sealed) && SafelyWidened(definition)
    requires Prepared(definition, plain, input, nonces).Some?
    ensures Prepared(definition, sealed, input, nonces).Some?
  {
    var document := definition.normalize(input).value;
    var records := definition.records(document);
    SealedRecordsAreStorable(definition, plain, sealed, records, nonces);
    SealedKeysAreDistinct(definition, plain, sealed, records, nonces);
    DeclaredBudgets(definition, plain, sealed);
    if records != [] {
      SealedTotalFits(definition, StoredForms(definition, plain, records, nonces),
                      StoredForms(definition, sealed, records, nonces));
    }
  }

  lemma EmptyIsAdmitted(definition: Definition, plain: Codec, sealed: Codec, input: Json, nonces: nat -> nat)
    requires Seals(plain, sealed) && Prepared(definition, plain, input, nonces).Some?
    requires definition.records(definition.normalize(input).value) == []
    ensures Prepared(definition, sealed, input, nonces).Some?
  {
  }

  lemma RecordsNeedBudgets(definition: Definition, plain: Codec, sealed: Codec, input: Json, nonces: nat -> nat)
    requires Seals(plain, sealed) && Prepared(definition, plain, input, nonces).Some? && !SafelyWidened(definition)
    requires definition.records(definition.normalize(input).value) != []
    ensures Prepared(definition, sealed, input, nonces).None?
  {
    hide Seals, SafelyWidened;
    var records := definition.records(definition.normalize(input).value);
    DeclaredBudgets(definition, plain, sealed);
    assert !RecordStorable(definition, sealed, records[0], nonces(0));
  }

  /**
   Any document the plaintext codec stores, the encrypted codec stores too, exactly
   while its widened budgets are safe integers; an empty one it stores in any case.
   */
  lemma EncryptionAdmitsEveryPlaintextCollection(definition: Definition, plain: Codec, sealed: Codec, input: Json,
                                                 nonces: nat -> nat)
    requires Seals(plain, sealed) && Prepared(definition, plain, input, nonces).Some?
    ensures var admitted := Prepared(definition, sealed, input, nonces);
      && (admitted.Some? <==> SafelyWidened(definition) || definition.records(definition.normalize(input).value) == [])
      && (admitted.Some? ==> admitted.value.document == Prepared(definition, plain, input, nonces).value.document)
  {
    hide Prepared, Seals, SafelyWidened;
    PreparedIsNormal(definition, plain, input, nonces);
    if Prepared(definition, sealed, input, nonces).Some? {
      PreparedIsNormal(definition, sealed, input, nonces);
    }
    if SafelyWidened(definition) {
      SafelyWidenedIsAdmitted(definition, plain, sealed, input, nonces);
    } else if definition.records(definition.normalize(input).value) == [] {
      EmptyIsAdmitted(definition, plain, sealed, input, nonces);
    } else {
      RecordsNeedBudgets(definition, plain, sealed, input, nonces);
    }
  }

  lemma PreparedIsNormal(definition: Definition, codec: Codec, input: Json, nonces: nat -> nat)
    requires Prepared(definition, codec, input, nonces).Some?
    ensures definition.normalize(input) == Some(Prepared(definition, codec, input, nonces).value.document)
  {
  }
}

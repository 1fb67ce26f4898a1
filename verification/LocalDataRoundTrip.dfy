/**
 Laws of the stored form: the order in which a cursor returns records never
 matters, reading returns what was written, nothing else is accepted under the
 same manifest, and encryption never narrows what a collection may hold.
 */
module LocalDataRoundTrip {
  import opened Basics
  import opened LocalDataContent
  import opened Permutations

  // ---------- Sorting by ordinal ----------

  lemma {:induction false} InsertIsPermutation(record: StoredRecord, sorted: seq<StoredRecord>)
    ensures multiset(InsertByOrdinal(record, sorted)) == multiset(sorted) + multiset{record}
  {
    if sorted != [] && sorted[0].ordinal <= record.ordinal {
      InsertIsPermutation(record, sorted[1..]);
      assert sorted == [sorted[0]] + sorted[1..];
    }
  }

  predicate Ascending(records: seq<StoredRecord>)
  {
    forall i, j :: 0 <= i < j < |records| ==> records[i].ordinal <= records[j].ordinal
  }

  lemma {:induction false} InsertKeepsAscending(record: StoredRecord, sorted: seq<StoredRecord>)
    requires Ascending(sorted)
    ensures Ascending(InsertByOrdinal(record, sorted))
  {
    if sorted != [] && sorted[0].ordinal <= record.ordinal {
      var rest := InsertByOrdinal(record, sorted[1..]);
      InsertKeepsAscending(record, sorted[1..]);
      InsertIsPermutation(record, sorted[1..]);
      forall j | 0 <= j < |rest| ensures sorted[0].ordinal <= rest[j].ordinal {
        assert rest[j] in multiset(rest);
        assert rest[j] == record || rest[j] in sorted[1..];
      }
    }
  }

  lemma {:induction false} SortOrders(records: seq<StoredRecord>)
    ensures multiset(SortByOrdinal(records)) == multiset(records)
    ensures Ascending(SortByOrdinal(records))
  {
    if records != [] {
      SortOrders(records[1..]);
      InsertIsPermutation(records[0], SortByOrdinal(records[1..]));
      InsertKeepsAscending(records[0], SortByOrdinal(records[1..]));
      assert records == [records[0]] + records[1..];
    }
  }

  lemma PlaceAgrees(placed: seq<StoredRecord>, sorted: seq<StoredRecord>, i: nat)
    requires OrdinalsInPlace(placed) && Ascending(sorted) && Rearranged(placed, sorted)
    requires i < |placed| == |sorted|
    requires forall j :: i < j < |placed| ==> sorted[j] == placed[j]
    ensures sorted[i] == placed[i]
  {
    SameMembers(placed, sorted, placed[i]);
    var k :| 0 <= k < |sorted| && sorted[k] == placed[i];
    SameMembers(placed, sorted, sorted[i]);
    var m :| 0 <= m < |placed| && placed[m] == sorted[i];
    if i < m {
      TwoPositionsRepeat(sorted, i, m);
      RepeatedAtTwoPositions(placed, sorted[i]);
    }
  }

  /** An ascending permutation of records whose ordinals are their positions is that very sequence. */
  lemma AscendingPermutationIsUnique(placed: seq<StoredRecord>, sorted: seq<StoredRecord>)
    requires OrdinalsInPlace(placed) && Ascending(sorted) && Rearranged(placed, sorted)
    ensures sorted == placed
  {
    SameSize(placed, sorted);
    for i := |placed| downto 0
      invariant forall j :: i <= j < |placed| ==> sorted[j] == placed[j]
    {
      PlaceAgrees(placed, sorted, i);
    }
  }

  lemma SortRestoresPlaces(placed: seq<StoredRecord>, arrived: seq<StoredRecord>)
    requires OrdinalsInPlace(placed) && Rearranged(arrived, placed)
    ensures SortByOrdinal(arrived) == placed
  {
    SortOrders(arrived);
    AscendingPermutationIsUnique(placed, SortByOrdinal(arrived));
  }

  // ---------- Order independence of verification ----------

  lemma {:induction false} TotalBytesOfJoin(a: seq<StoredRecord>, b: seq<StoredRecord>)
    ensures TotalBytes(a + b) == TotalBytes(a) + TotalBytes(b)
  {
    if b == [] {
      assert a + b == a;
    } else {
      assert (a + b)[..|a + b| - 1] == a + b[..|b| - 1];
      TotalBytesOfJoin(a, b[..|b| - 1]);
    }
  }

  lemma TotalBytesWithout(s: seq<StoredRecord>, k: nat)
    requires k < |s|
    ensures TotalBytes(s) == TotalBytes(Without(s, k)) + s[k].payloadBytes
  {
    var front, back := s[..k + 1], s[k + 1..];
    assert s == front + back;
    TotalBytesOfJoin(front, back);
    assert front[..k] == s[..k];
    TotalBytesOfJoin(s[..k], back);
  }

  lemma {:induction false} TotalBytesIgnoresOrder(a: seq<StoredRecord>, b: seq<StoredRecord>)
    requires Rearranged(a, b)
    ensures TotalBytes(a) == TotalBytes(b)
  {
    SameSize(a, b);
    if a != [] {
      var r := a[|a| - 1];
      SameMembers(a, b, r);
      var k :| 0 <= k < |b| && b[k] == r;
      WithoutRemovesOne(a, |a| - 1);
      WithoutRemovesOne(b, k);
      assert Without(a, |a| - 1) == a[..|a| - 1];
      TotalBytesIgnoresOrder(a[..|a| - 1], Without(b, k));
      TotalBytesWithout(b, k);
    }
  }

  lemma {:induction false} DistinctKeysIgnoreOrder(a: seq<StoredRecord>, b: seq<StoredRecord>)
    requires Rearranged(a, b) && DistinctLookupKeys(a)
    ensures DistinctLookupKeys(b)
  {
    forall i, j | 0 <= i < j < |b| ensures b[i].lookupKey != b[j].lookupKey {
      SameMembers(a, b, b[i]);
      SameMembers(a, b, b[j]);
      if b[i] == b[j] {
        TwoPositionsRepeat(b, i, j);
        RepeatedAtTwoPositions(a, b[i]);
      }
    }
  }

  lemma VerifiableIgnoresOrder(definition: Definition, codec: Codec, a: seq<StoredRecord>, b: seq<StoredRecord>)
    requires Rearranged(a, b) && Verifiable(definition, codec, a)
    ensures Verifiable(definition, codec, b)
  {
    SameSize(a, b);
    DistinctKeysIgnoreOrder(a, b);
    TotalBytesIgnoresOrder(a, b);
    forall i | 0 <= i < |b| ensures b[i] in a {
      SameMembers(a, b, b[i]);
    }
  }

  /** Reading is a function of the record set: any two cursor orders give the same document or the same refusal. */
  lemma CursorOrderNeverMatters(definition: Definition, codec: Codec, manifest: Manifest, a: seq<StoredRecord>,
                                b: seq<StoredRecord>)
    requires Rearranged(a, b)
    ensures Decoded(definition, codec, manifest, a) == Decoded(definition, codec, manifest, b)
  {
    SameSize(a, b);
    if Verifiable(definition, codec, a) {
      VerifiableIgnoresOrder(definition, codec, a, b);
    } else if Verifiable(definition, codec, b) {
      VerifiableIgnoresOrder(definition, codec, b, a);
    }
    SortOrders(a);
    SortOrders(b);
    var s, t := SortByOrdinal(a), SortByOrdinal(b);
    if OrdinalsInPlace(s) {
      AscendingPermutationIsUnique(s, t);
    } else if OrdinalsInPlace(t) {
      AscendingPermutationIsUnique(t, s);
    }
  }

  // ---------- Round trip ----------

  lemma StoredFormsVerify(definition: Definition, codec: Codec, document: Json, nonces: nat -> nat)
    requires Admissible(definition, codec, document, nonces)
    ensures Verifiable(definition, codec, StoredForms(definition, codec, definition.records(document), nonces))
    ensures OrdinalsInPlace(StoredForms(definition, codec, definition.records(document), nonces))
  {
  }

  lemma StoredFormsDecode(definition: Definition, codec: Codec, records: seq<LocalRecord>, nonces: nat -> nat)
    requires LawfulCodec(codec) && AllStorable(definition, codec, records, nonces)
    ensures AllDecodable(definition, codec, StoredForms(definition, codec, records, nonces))
    ensures DecodedRecords(definition, codec, StoredForms(definition, codec, records, nonces)) == Identified(records)
  {
  }

  /**
   Whatever the writer admits, the reader admits in every record order, and it
   returns exactly the normal document that was prepared.
   */
  lemma PreparedDocumentReadsBack(definition: Definition, codec: Codec, input: Json, nonces: nat -> nat,
                                  manifest: Manifest, arrived: seq<StoredRecord>)
    requires LawfulDefinition(definition) && LawfulCodec(codec)
    requires Prepared(definition, codec, input, nonces).Some?
    requires var content := Prepared(definition, codec, input, nonces).value;
      && ManifestReadable(definition, manifest) && ContentMatches(definition, codec, content, manifest)
      && Rearranged(arrived, content.records)
    ensures Decoded(definition, codec, manifest, arrived) == definition.normalize(input)
  {
    var content := Prepared(definition, codec, input, nonces).value;
    StoredFormsVerify(definition, codec, content.document, nonces);
    StoredFormsDecode(definition, codec, definition.records(content.document), nonces);
    CursorOrderNeverMatters(definition, codec, manifest, content.records, arrived);
    SortRestoresPlaces(content.records, content.records);
    assert Normal(definition, content.document);
  }

  lemma ContentDeterminesRecords(definition: Definition, codec: Codec, a: seq<StoredRecord>, b: seq<StoredRecord>)
    requires ContentOfRecords(a) == ContentOfRecords(b)
    requires Verifiable(definition, codec, a) && Verifiable(definition, codec, b)
    ensures a == b
  {
    assert |a| == |b|;
    forall i | 0 <= i < |a| ensures a[i] == b[i] {
      assert ContentOfRecords(a)[i] == ContentOfRecords(b)[i];
      assert RecordShape(definition, codec.id, a[i]) && RecordShape(definition, codec.id, b[i]);
    }
  }

  /**
   Tamper evidence: with an injective digest, the records accepted under a
   prepared collection's manifest are exactly the permutations of its records.
   */
  lemma OnlyPreparedRecordsAreAccepted(definition: Definition, codec: Codec, input: Json, nonces: nat -> nat,
                                       manifest: Manifest, arrived: seq<StoredRecord>)
    requires LawfulDefinition(definition) && LawfulCodec(codec) && InjectiveDigest(codec)
    requires Prepared(definition, codec, input, nonces).Some?
    requires var content := Prepared(definition, codec, input, nonces).value;
      ManifestReadable(definition, manifest) && ContentMatches(definition, codec, content, manifest)
    ensures Decoded(definition, codec, manifest, arrived).Some? <==>
      Rearranged(arrived, Prepared(definition, codec, input, nonces).value.records)
  {
    var content := Prepared(definition, codec, input, nonces).value;
    if Rearranged(arrived, content.records) {
      PreparedDocumentReadsBack(definition, codec, input, nonces, manifest, arrived);
    }
    if Decoded(definition, codec, manifest, arrived).Some? {
      var ordered := SortByOrdinal(arrived);
      SortOrders(arrived);
      VerifiableIgnoresOrder(definition, codec, arrived, ordered);
      StoredFormsVerify(definition, codec, content.document, nonces);
      assert CollectionDigest(codec, definition.id, manifest.schemaVersion, manifest.serializedBytes, ordered)
          == content.digest;
      ContentDeterminesRecords(definition, codec, ordered, content.records);
    }
  }

  /**
   A prepared collection whose content matches a readable stored one holds the
   same document: nothing is lost by skipping the write.
   */
  lemma MatchingContentIsSameDocument(definition: Definition, codec: Codec, input: Json, nonces: nat -> nat,
                                      manifest: Manifest, arrived: seq<StoredRecord>)
    requires LawfulDefinition(definition) && LawfulCodec(codec) && InjectiveDigest(codec)
    requires Prepared(definition, codec, input, nonces).Some?
    requires ContentMatches(definition, codec, Prepared(definition, codec, input, nonces).value, manifest)
    requires Decoded(definition, codec, manifest, arrived).Some?
    ensures Decoded(definition, codec, manifest, arrived) == definition.normalize(input)
  {
    OnlyPreparedRecordsAreAccepted(definition, codec, input, nonces, manifest, arrived);
    PreparedDocumentReadsBack(definition, codec, input, nonces, manifest, arrived);
  }
}

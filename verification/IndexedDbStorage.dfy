/**
 The browser database under the protocol: three object stores keyed by
 collection, the one read-write transaction of `commit`, the bounded cursor
 of `capture`, and the proof that they implement the abstract store and its
 compare-and-swap.

 A method body is one transaction: section 2.7 of the W3C Indexed Database API
 3.0 runs it atomically and in order with every other overlapping transaction.
 */
module IndexedDbStorage {
  import opened Basics
  import opened LocalDataContent
  import opened LocalDataRoundTrip
  import opened LocalDataWriter
  import opened Permutations
  import opened CommitPlan
  import opened CommitPlanLaws

  type Key = (Text, Text)

  datatype Tables = Tables(manifests: map<Text, Manifest>, records: map<Key, StoredRecord>, files: map<Key, Text>)

  datatype CollectionChange = CollectionChange(manifest: Manifest, records: seq<StoredRecord>)

  /** Bodies to delete and to put, by lookup key. */
  datatype FileChange = FileChange(collection: Text, remove: seq<Text>, writes: seq<(Text, Text)>)

  datatype StorageCommit = StorageCommit(expected: seq<(Text, Option<Manifest>)>, collections: seq<CollectionChange>,
                                         files: seq<FileChange>)

  datatype CommitFailure = NotWritable | RevisionChanged | Leftovers

  datatype CaptureFailure = NoManifest | BadManifest | Locked | BadRecords | BadCodec

  datatype CapturedCollection = CapturedCollection(manifest: Manifest, records: seq<StoredRecord>)

  // ---------- Rows of one collection ----------

  /** The key range `[collection] .. [collection, []]`. */
  function Range<V>(table: map<Key, V>, collection: Text): map<Key, V>
  {
    map k | k in table && k.0 == collection :: table[k]
  }

  function OutsideRange<V>(table: map<Key, V>, collection: Text): map<Key, V>
  {
    map k | k in table && k.0 != collection :: table[k]
  }

  function WithRows(table: map<Key, StoredRecord>, rows: seq<StoredRecord>): map<Key, StoredRecord>
  {
    if rows == [] then table else WithRows(table, rows[..|rows| - 1])[rows[|rows| - 1].key := rows[|rows| - 1]]
  }

  function WithoutBodies(table: map<Key, Text>, collection: Text, keys: seq<Text>): map<Key, Text>
  {
    if keys == [] then table
        else WithoutBodies(table, collection, keys[..|keys| - 1]) - {(collection, keys[|keys| - 1])}
  }

  function WithBodies(table: map<Key, Text>, collection: Text, bodies: seq<(Text, Text)>): map<Key, Text>
  {
    if bodies == [] then table
    else WithBodies(table, collection,
                    bodies[..|bodies| - 1])[(collection, bodies[|bodies| - 1].0) := bodies[|bodies| - 1].1]
  }

  // ---------- What a transaction decides and writes ----------

  function ManifestIn(tables: Tables, c: Text): Option<Manifest>
  {
    if c in tables.manifests then Some(tables.manifests[c]) else None
  }

  predicate HasLeftovers(tables: Tables, c: Text)
  {
    Range(tables.records, c) != map[] || Range(tables.files, c) != map[]
  }

  function FailureOf(tables: Tables, commit: StorageCommit, writable: bool, stillWritable: bool): Option<CommitFailure>
  {
    if !writable then Some(NotWritable)
    else if exists i :: 0 <= i < |commit.expected| && ManifestIn(tables, commit.expected[i].0) != commit.expected[i].1
    then Some(RevisionChanged)
    else if exists i ::
      0 <= i < |commit.expected| && commit.expected[i].1.None? && HasLeftovers(tables, commit.expected[i].0)
    then Some(Leftovers)
    else if !stillWritable then Some(NotWritable)
    else None
  }

  function WithCollection(tables: Tables, change: CollectionChange): Tables
  {
    tables.(records := WithRows(OutsideRange(tables.records, change.manifest.collection), change.records),
            manifests := tables.manifests[change.manifest.collection := change.manifest])
  }

  function WithCollections(tables: Tables, changes: seq<CollectionChange>): Tables
  {
    if changes == [] then tables
        else WithCollection(WithCollections(tables, changes[..|changes| - 1]), changes[|changes| - 1])
  }

  function WithFileChange(table: map<Key, Text>, change: FileChange): map<Key, Text>
  {
    WithBodies(WithoutBodies(table, change.collection, change.remove), change.collection, change.writes)
  }

  function WithFileChanges(table: map<Key, Text>, changes: seq<FileChange>): map<Key, Text>
  {
    if changes == [] then table
        else WithFileChange(WithFileChanges(table, changes[..|changes| - 1]), changes[|changes| - 1])
  }

  function Committed(tables: Tables, commit: StorageCommit): Tables
  {
    var written := WithCollections(tables, commit.collections);
    written.(files := WithFileChanges(written.files, commit.files))
  }

  // ---------- What a cursor reads ----------

  /** A cursor over the collection index: every matching key once, in any order, with its row. */
  ghost predicate Lists(keys: seq<Key>, rows: seq<StoredRecord>, table: map<Key, StoredRecord>, collection: Text)
  {
    && |keys| == |rows|
    && (forall i, j :: 0 <= i < j < |keys| ==> keys[i] != keys[j])
    && (forall i :: 0 <= i < |keys| ==>
        keys[i] in table && table[keys[i]] == rows[i] && rows[i].collection == collection)
    && (forall k :: k in table && table[k].collection == collection ==> k in keys)
  }

  /** What the bounded cursor accepts. */
  predicate Bounded(definition: Definition, codec: Codec, rows: seq<StoredRecord>)
  {
    CollectionBudget(definition, codec).Some? && |rows| <= definition.maximumRecords
        && Verifiable(definition, codec, rows)
  }

  class IndexedDbLocalDataStorage {
    const definitions: map<Text, Definition>
    const codec: Codec
    var manifests: map<Text, Manifest>
    var records: map<Key, StoredRecord>
    var files: map<Key, Text>

    constructor (definitions: map<Text, Definition>, codec: Codec)
      ensures this.definitions == definitions && this.codec == codec
      ensures Contents() == Tables(map[], map[], map[])
    {
      this.definitions, this.codec := definitions, codec;
      manifests, records, files := map[], map[], map[];
    }

    function Contents(): Tables
      reads this
    {
      Tables(manifests, records, files)
    }

    /** One compare-and-swap transaction: everything is checked before anything is written. */
    method Commit(commit: StorageCommit, writable: bool, stillWritable: bool) returns (failure: Option<CommitFailure>)
      modifies this
      ensures failure == FailureOf(old(Contents()), commit, writable, stillWritable)
      ensures Contents() == if failure.None? then Committed(old(Contents()), commit) else old(Contents())
    {
      if !writable {
        return Some(NotWritable);
      }
      for i := 0 to |commit.expected|
        invariant forall j :: 0 <= j < i ==> ManifestIn(Contents(), commit.expected[j].0) == commit.expected[j].1
        invariant Contents() == old(Contents())
      {
        if ManifestIn(Contents(), commit.expected[i].0) != commit.expected[i].1 {
          return Some(RevisionChanged);
        }
      }
      for i := 0 to |commit.expected|
        invariant forall j :: 0 <= j < i && commit.expected[j].1.None? ==>
          !HasLeftovers(Contents(), commit.expected[j].0)
        invariant Contents() == old(Contents())
      {
        if commit.expected[i].1.None? {
          if |Range(records, commit.expected[i].0)| != 0 || |Range(files, commit.expected[i].0)| != 0 {
            return Some(Leftovers);
          }
        }
      }
      if !stillWritable {
        return Some(NotWritable);
      }
      for i := 0 to |commit.collections|
        invariant Contents() == WithCollections(old(Contents()), commit.collections[..i])
      {
        assert commit.collections[..i + 1][..i] == commit.collections[..i];
        ReplaceCollection(commit.collections[i]);
      }
      assert commit.collections[..|commit.collections|] == commit.collections;
      for i := 0 to |commit.files|
        invariant manifests == WithCollections(old(Contents()), commit.collections).manifests
        invariant records == WithCollections(old(Contents()), commit.collections).records
        invariant files
            == WithFileChanges(WithCollections(old(Contents()), commit.collections).files, commit.files[..i])
      {
        assert commit.files[..i + 1][..i] == commit.files[..i];
        ChangeFiles(commit.files[i]);
      }
      assert commit.files[..|commit.files|] == commit.files;
      return None;
    }

    method ReplaceCollection(change: CollectionChange)
      modifies this
      ensures Contents() == WithCollection(old(Contents()), change)
    {
      records := OutsideRange(records, change.manifest.collection);
      ghost var kept := records;
      for i := 0 to |change.records|
        invariant records == WithRows(kept, change.records[..i])
        invariant files == old(files) && manifests == old(manifests)
      {
        assert change.records[..i + 1][..i] == change.records[..i];
        records := records[change.records[i].key := change.records[i]];
      }
      assert change.records[..|change.records|] == change.records;
      manifests := manifests[change.manifest.collection := change.manifest];
    }

    method ChangeFiles(change: FileChange)
      modifies this`files
      ensures files == WithFileChange(old(files), change)
    {
      for i := 0 to |change.remove|
        invariant files == WithoutBodies(old(files), change.collection, change.remove[..i])
      {
        assert change.remove[..i + 1][..i] == change.remove[..i];
        files := files - {(change.collection, change.remove[i])};
      }
      assert change.remove[..|change.remove|] == change.remove;
      ghost var kept := files;
      for i := 0 to |change.writes|
        invariant files == WithBodies(kept, change.collection, change.writes[..i])
      {
        assert change.writes[..i + 1][..i] == change.writes[..i];
        files := files[(change.collection, change.writes[i].0) := change.writes[i].1];
      }
      assert change.writes[..|change.writes|] == change.writes;
    }

    /** The browser's cursor over one collection; its order is not promised. */
    method OpenCursor(collection: Text) returns (keys: seq<Key>, rows: seq<StoredRecord>)
      ensures Lists(keys, rows, records, collection)
    {
      var remaining := set k | k in records && records[k].collection == collection;
      keys, rows := [], [];
      while remaining != {}
        invariant |keys| == |rows|
        invariant forall i :: 0 <= i < |keys| ==> keys[i] !in remaining
        invariant forall i, j :: 0 <= i < j < |keys| ==> keys[i] != keys[j]
        invariant forall i :: 0 <= i < |keys| ==>
          keys[i] in records && records[keys[i]] == rows[i] && rows[i].collection == collection
        invariant forall k :: k in remaining ==> k in records && records[k].collection == collection
        invariant forall k :: k in records && records[k].collection == collection ==> k in keys || k in remaining
      {
        var k :| k in remaining;
        remaining := remaining - {k};
        keys, rows := keys + [k], rows + [records[k]];
      }
    }

    /** The bounded cursor loop: what it returns depends only on the rows, never on their order. */
    method ReadBoundedStoredRecords(definition: Definition)
      returns (r: Result<seq<StoredRecord>, CaptureFailure>, ghost keys: seq<Key>, ghost rows: seq<StoredRecord>)
      ensures Lists(keys, rows, records, definition.id)
      ensures r.Ok? <==> Bounded(definition, codec, rows)
      ensures r.Ok? ==> r.value == rows
      ensures r == Err(BadCodec) ==> !BudgetsDeclared(definition, codec)
      ensures r.Err? ==> r.error == BadCodec || r.error == BadRecords
      ensures r == Err(BadRecords) ==> CollectionBudget(definition, codec).Some?
    {
      hide RecordShape, EncodedByteLimit, KeysBefore, Verifiable, Lists;
      var cursorKeys, cursor := OpenCursor(definition.id);
      keys, rows := cursorKeys, cursor;
      var maximumEncodedBytes := CollectionBudget(definition, codec);
      if maximumEncodedBytes.None? {
        return Err(BadCodec), keys, rows;
      }
      var read: seq<StoredRecord> := [];
      var lookupKeys: set<Text> := {};
      var retainedBytes := 0;
      NothingVerifiedYet(definition, codec, rows);
      for n := 0 to |cursor|
        invariant read == rows[..n] && n <= definition.maximumRecords
        invariant VerifiedUpTo(definition, codec, rows, n)
        invariant retainedBytes == TotalBytes(rows[..n])
        invariant lookupKeys == KeysBefore(rows, n)
      {
        if |read| >= definition.maximumRecords {
          return Err(BadRecords), keys, rows;
        }
        var recordBudget := RecordBudget(definition, codec);
        if recordBudget.None? {
          NeverWithoutBudgets(definition, codec, rows);
          return Err(BadCodec), keys, rows;
        }
        var ok, next :=
            VerifyStoredRecord(cursor[n], definition, codec.id, lookupKeys,
                               Smaller(recordBudget.value, maximumEncodedBytes.value - retainedBytes));
        if !ok {
          NotVerifiable(definition, codec, rows, n);
          return Err(BadRecords), keys, rows;
        }
        OneMoreVerified(definition, codec, rows, n);
        lookupKeys := next;
        retainedBytes := retainedBytes + cursor[n].payloadBytes;
        assert rows[..n + 1] == rows[..n] + [rows[n]];
        read := read + [cursor[n]];
      }
      assert rows[..|rows|] == rows;
      return Ok(read), keys, rows;
    }

    /** One collection of a snapshot: its manifest, then its rows, in the same read-only transaction. */
    method Capture(c: Text)
      returns (r: Result<CapturedCollection, CaptureFailure>, ghost keys: seq<Key>, ghost rows: seq<StoredRecord>)
      requires c in definitions && definitions[c].id == c
      ensures r == Err(NoManifest) <==> c !in manifests
      ensures r.Ok? ==> c in manifests && r.value == CapturedCollection(manifests[c], rows)
      ensures r.Ok? ==> ManifestReadable(definitions[c], manifests[c]) && manifests[c].codec == codec.id
      ensures r.Ok? || r.error == BadRecords || r.error == BadCodec ==> Lists(keys, rows, records, c)
      ensures r.Ok? ==> Bounded(definitions[c], codec, rows)
      ensures r == Err(BadManifest) ==> c in manifests && !ManifestReadable(definitions[c], manifests[c])
      ensures r == Err(Locked) ==> c in manifests && manifests[c].codec != codec.id
      ensures r.Err? && (r.error == BadRecords || r.error == BadCodec) ==> !Bounded(definitions[c], codec, rows)
      ensures r == Err(BadCodec) ==> !BudgetsDeclared(definitions[c], codec)
      ensures r == Err(BadRecords) ==> CollectionBudget(definitions[c], codec).Some?
    {
      hide ManifestReadable, Bounded, Lists, BudgetsDeclared;
      keys, rows := [], [];
      if c !in manifests {
        return Err(NoManifest), keys, rows;
      }
      if !ManifestReadable(definitions[c], manifests[c]) {
        return Err(BadManifest), keys, rows;
      }
      if manifests[c].codec != codec.id {
        return Err(Locked), keys, rows;
      }
      var read;
      read, keys, rows := ReadBoundedStoredRecords(definitions[c]);
      if read.Err? {
        return Err(read.error), keys, rows;
      }
      return Ok(CapturedCollection(manifests[c], read.value)), keys, rows;
    }
  }

  // ---------- Representation of the abstract store ----------

  /** Rows a collection may hold: under its own identifier, one per lookup key. */
  predicate OwnRows(c: Text, rows: seq<StoredRecord>)
  {
    && (forall i :: 0 <= i < |rows| ==> rows[i].key == (c, rows[i].lookupKey) && rows[i].collection == c)
    && DistinctLookupKeys(rows)
  }

  function Keyed(c: Text, bodies: map<Text, Text>): map<Key, Text>
  {
    map k | k in bodies :: (c, k) := bodies[k]
  }

  ghost predicate HoldsCollection(tables: Tables, c: Text, held: Held)
  {
    && ManifestIn(tables, c) == Some(held.manifest)
    && OwnRows(c, held.records) && Range(tables.records, c) == WithRows(map[], held.records)
    && Range(tables.files, c) == Keyed(c, held.files)
  }

  ghost predicate RepresentsAt(tables: Tables, store: Store, c: Text)
  {
    if c in store.held then HoldsCollection(tables, c, store.held[c])
    else ManifestIn(tables, c).None? && (c in store.stray <==> HasLeftovers(tables, c))
  }

  /** Every row is filed under its own key, in the range of its own collection. */
  ghost predicate OwnKeys(records: map<Key, StoredRecord>)
  {
    forall k :: k in records ==> records[k].key == k && records[k].collection == k.0
  }

  /** The keyed tables hold exactly the abstract store. */
  ghost predicate Represents(tables: Tables, store: Store)
  {
    OwnKeys(tables.records) && forall c: Text :: RepresentsAt(tables, store, c)
  }

  function BodiesIn(writes: seq<(Text, Text)>): map<Text, Text>
  {
    if writes == [] then map[] else BodiesIn(writes[..|writes| - 1])[writes[|writes| - 1].0 := writes[|writes| - 1].1]
  }

  function Removed(keys: seq<Text>): set<Text> { set k | k in keys }

  ghost predicate EncodesCollections(changes: seq<CollectionChange>, writes: map<Text, Write>)
  {
    && (forall i, j :: 0 <= i < j < |changes| ==> changes[i].manifest.collection != changes[j].manifest.collection)
    && (forall i :: 0 <= i < |changes| ==> EncodesCollection(changes[i], writes))
    && (forall c :: c in writes ==> exists i :: 0 <= i < |changes| && changes[i].manifest.collection == c)
  }

  ghost predicate EncodesCollection(change: CollectionChange, writes: map<Text, Write>)
  {
    var c := change.manifest.collection;
    c in writes && writes[c].manifest == change.manifest && writes[c].content.records == change.records
        && OwnRows(c, change.records)
  }

  ghost predicate EncodesFiles(changes: seq<FileChange>, writes: map<Text, Write>)
  {
    && (forall i, j :: 0 <= i < j < |changes| ==> changes[i].collection != changes[j].collection)
    && (forall i :: 0 <= i < |changes| ==> EncodesFile(changes[i], writes))
    && (forall c :: c in writes ==>
        (exists i :: 0 <= i < |changes| && changes[i].collection == c)
            || (writes[c].removed == {} && writes[c].added == map[]))
  }

  ghost predicate EncodesFile(change: FileChange, writes: map<Text, Write>)
  {
    var c := change.collection;
    c in writes && Removed(change.remove) == writes[c].removed && BodiesIn(change.writes) == writes[c].added
  }

  /** The transaction `#commit` hands to storage for a planned change. */
  ghost predicate Encodes(commit: StorageCommit, change: Change)
  {
    && (forall i :: 0 <= i < |commit.expected| ==>
        commit.expected[i].0 in change.expected && change.expected[commit.expected[i].0] == commit.expected[i].1)
    && (forall c :: c in change.expected ==> exists i :: 0 <= i < |commit.expected| && commit.expected[i].0 == c)
    && EncodesCollections(commit.collections, change.writes)
    && EncodesFiles(commit.files, change.writes)
  }

  // ---------- The transaction decides as the abstract compare-and-swap ----------

  /** Conflict, leftovers or success, exactly as the abstract store says. */
  lemma CommitDecides(tables: Tables, store: Store, commit: StorageCommit, change: Change)
    requires Represents(tables, store) && Encodes(commit, change)
    ensures FailureOf(tables, commit, true, true) ==
      if !Matches(store, change.expected) then Some(RevisionChanged)
      else if ReplacesStray(store, change) then Some(Leftovers)
      else None
  {
    hide HasLeftovers, EncodesCollections, EncodesFiles, Range;
    forall c ensures ManifestIn(tables, c) == ManifestAt(store, c) {
      assert RepresentsAt(tables, store, c);
    }
    if Matches(store, change.expected) {
      forall i | 0 <= i < |commit.expected| && commit.expected[i].1.None?
        ensures HasLeftovers(tables, commit.expected[i].0) <==> commit.expected[i].0 in store.stray
      {
        assert RepresentsAt(tables, store, commit.expected[i].0);
        assert ManifestAt(store, commit.expected[i].0).None?;
      }
    }
  }

  // ---------- Ranges ----------

  lemma {:induction false} RangeWithRows(table: map<Key, StoredRecord>, rows: seq<StoredRecord>, d: Text, c: Text)
    requires forall i :: 0 <= i < |rows| ==> rows[i].key.0 == d
    ensures Range(WithRows(table, rows), c) == if c == d then WithRows(Range(table, c), rows) else Range(table, c)
  {
    if rows != [] {
      RangeWithRows(table, rows[..|rows| - 1], d, c);
    }
  }

  lemma RangeWithCollection(tables: Tables, change: CollectionChange, c: Text)
    requires forall i :: 0 <= i < |change.records| ==> change.records[i].key.0 == change.manifest.collection
    ensures var after := WithCollection(tables, change);
      && Range(after.records, c)
          == (if c == change.manifest.collection then WithRows(map[], change.records) else Range(tables.records, c))
      && ManifestIn(after, c)
          == (if c == change.manifest.collection then Some(change.manifest) else ManifestIn(tables, c))
      && after.files == tables.files
  {
    var d := change.manifest.collection;
    RangeWithRows(OutsideRange(tables.records, d), change.records, d, c);
    assert c == d ==> Range(OutsideRange(tables.records, d), c) == map[];
    assert c != d ==> Range(OutsideRange(tables.records, d), c) == Range(tables.records, c);
  }

  ghost predicate SelfKeyed(changes: seq<CollectionChange>)
  {
    forall i, k :: 0 <= i < |changes| && 0 <= k < |changes[i].records| ==>
      changes[i].records[k].key.0 == changes[i].manifest.collection
  }

  /** The change of a collection decides its rows; the others leave them alone. */
  lemma {:induction false} RangeWithCollections(tables: Tables, changes: seq<CollectionChange>, c: Text)
    requires SelfKeyed(changes)
    requires forall i, j :: 0 <= i < j < |changes| ==> changes[i].manifest.collection != changes[j].manifest.collection
    ensures WithCollections(tables, changes).files == tables.files
    ensures (forall i :: 0 <= i < |changes| ==> changes[i].manifest.collection != c) ==>
      Range(WithCollections(tables, changes).records, c) == Range(tables.records, c)
          && ManifestIn(WithCollections(tables, changes), c) == ManifestIn(tables, c)
    ensures forall i :: 0 <= i < |changes| && changes[i].manifest.collection == c ==>
      Range(WithCollections(tables, changes).records, c) == WithRows(map[], changes[i].records)
      && ManifestIn(WithCollections(tables, changes), c) == Some(changes[i].manifest)
  {
    hide WithCollection, WithRows, Range, ManifestIn;
    if changes != [] {
      var n := |changes| - 1;
      RangeWithCollections(tables, changes[..n], c);
      RangeWithCollection(WithCollections(tables, changes[..n]), changes[n], c);
      if changes[n].manifest.collection != c {
        forall i | 0 <= i < |changes| && changes[i].manifest.collection == c
          ensures Range(WithCollections(tables, changes).records, c) == WithRows(map[], changes[i].records)
          ensures ManifestIn(WithCollections(tables, changes), c) == Some(changes[i].manifest)
        {
          assert changes[..n][i] == changes[i];
        }
      }
    }
  }

  lemma {:induction false} RangeWithoutBodies(table: map<Key, Text>, d: Text, keys: seq<Text>, c: Text,
                                              bodies: map<Text, Text>)
    requires Range(table, c) == Keyed(c, bodies)
    ensures Range(WithoutBodies(table, d, keys), c) == Keyed(c, if c == d then bodies - Removed(keys) else bodies)
  {
    if keys != [] {
      var n := |keys| - 1;
      RangeWithoutBodies(table, d, keys[..n], c, bodies);
      assert Removed(keys) == Removed(keys[..n]) + {keys[n]};
      var before := if c == d then bodies - Removed(keys[..n]) else bodies;
      RangeOfRemoval(WithoutBodies(table, d, keys[..n]), d, keys[n], c, before);
      assert c == d ==> before - {keys[n]} == bodies - Removed(keys);
    } else {
      assert bodies - Removed(keys) == bodies;
    }
  }

  lemma RangeOfRemoval(table: map<Key, Text>, d: Text, key: Text, c: Text, bodies: map<Text, Text>)
    requires Range(table, c) == Keyed(c, bodies)
    ensures Range(table - {(d, key)}, c) == Keyed(c, if c == d then bodies - {key} else bodies)
  {
    var after := Keyed(c, if c == d then bodies - {key} else bodies);
    var range := Range(table - {(d, key)}, c);
    forall k ensures k in range <==> k in after
      ensures k in range && k in after ==> range[k] == after[k]
    {
      assert k in Range(table, c) <==> k in Keyed(c, bodies);
    }
  }

  lemma RangeOfPut(table: map<Key, Text>, d: Text, key: Text, body: Text, c: Text, bodies: map<Text, Text>)
    requires Range(table, c) == Keyed(c, bodies)
    ensures Range(table[(d, key) := body], c) == Keyed(c, if c == d then bodies[key := body] else bodies)
  {
    var after := Keyed(c, if c == d then bodies[key := body] else bodies);
    var range := Range(table[(d, key) := body], c);
    forall k ensures k in range <==> k in after
      ensures k in range && k in after ==> range[k] == after[k]
    {
      assert k in Range(table, c) <==> k in Keyed(c, bodies);
    }
  }

  lemma {:induction false} RangeWithBodies(table: map<Key, Text>, d: Text, writes: seq<(Text, Text)>, c: Text,
                                           bodies: map<Text, Text>)
    requires Range(table, c) == Keyed(c, bodies)
    ensures Range(WithBodies(table, d, writes), c) == Keyed(c, if c == d then bodies + BodiesIn(writes) else bodies)
  {
    hide Range, Keyed;
    if writes != [] {
      var n := |writes| - 1;
      RangeWithBodies(table, d, writes[..n], c, bodies);
      var before := if c == d then bodies + BodiesIn(writes[..n]) else bodies;
      RangeOfPut(WithBodies(table, d, writes[..n]), d, writes[n].0, writes[n].1, c, before);
      assert c == d ==> before[writes[n].0 := writes[n].1] == bodies + BodiesIn(writes);
    } else {
      assert bodies + BodiesIn(writes) == bodies;
    }
  }

  /** The bodies of one collection after the file changes. */
  function BodiesAfter(bodies: map<Text, Text>, changes: seq<FileChange>, c: Text): map<Text, Text>
  {
    if changes == [] then bodies
    else
      var before, last := BodiesAfter(bodies, changes[..|changes| - 1], c), changes[|changes| - 1];
      if last.collection == c then (before - Removed(last.remove)) + BodiesIn(last.writes) else before
  }

  lemma RangeWithFileChange(table: map<Key, Text>, change: FileChange, c: Text, bodies: map<Text, Text>)
    requires Range(table, c) == Keyed(c, bodies)
    ensures Range(WithFileChange(table, change), c)
      == Keyed(c, if change.collection == c then (bodies - Removed(change.remove)) + BodiesIn(change.writes)
               else bodies)
  {
    hide Range, Keyed, BodiesIn, Removed, WithBodies, WithoutBodies;
    RangeWithoutBodies(table, change.collection, change.remove, c, bodies);
    RangeWithBodies(WithoutBodies(table, change.collection, change.remove), change.collection, change.writes, c,
                    if c == change.collection then bodies - Removed(change.remove) else bodies);
  }

  lemma {:induction false} RangeWithFileChanges(table: map<Key, Text>, changes: seq<FileChange>, c: Text,
                                                bodies: map<Text, Text>)
    requires Range(table, c) == Keyed(c, bodies)
    ensures Range(WithFileChanges(table, changes), c) == Keyed(c, BodiesAfter(bodies, changes, c))
  {
    hide Range, Keyed, WithFileChange;
    if changes != [] {
      var n := |changes| - 1;
      RangeWithFileChanges(table, changes[..n], c, bodies);
      RangeWithFileChange(WithFileChanges(table, changes[..n]), changes[n], c, BodiesAfter(bodies, changes[..n], c));
    }
  }

  /** Deletions, then puts, of the one file change a collection may have. */
  lemma {:induction false} OneFileChange(bodies: map<Text, Text>, changes: seq<FileChange>, c: Text)
    requires forall i, j :: 0 <= i < j < |changes| ==> changes[i].collection != changes[j].collection
    ensures (forall i :: 0 <= i < |changes| ==> changes[i].collection != c) ==>
      BodiesAfter(bodies, changes, c) == bodies
    ensures forall i :: 0 <= i < |changes| && changes[i].collection == c ==>
      BodiesAfter(bodies, changes, c) == (bodies - Removed(changes[i].remove)) + BodiesIn(changes[i].writes)
  {
    hide BodiesIn, Removed;
    if changes != [] {
      var n := |changes| - 1;
      OneFileChange(bodies, changes[..n], c);
      forall i | 0 <= i < |changes| && changes[i].collection == c
        ensures BodiesAfter(bodies, changes, c) == (bodies - Removed(changes[i].remove)) + BodiesIn(changes[i].writes)
      {
        assert i < n ==> changes[..n][i] == changes[i];
      }
    }
  }

  // ---------- The transaction writes what the abstract store installs ----------

  lemma WrittenCollection(tables: Tables, store: Store, commit: StorageCommit, change: Change, c: Text)
    requires RepresentsAt(tables, store, c) && Encodes(commit, change) && CommitAllowed(store, change)
        && c in change.writes
    requires change.writes.Keys <= change.expected.Keys
    ensures HoldsCollection(Committed(tables, commit), c, Installed(store, c, change.writes[c]))
  {
    hide WithRows, Range, WithCollections, WithFileChanges, OwnRows, Keyed, RepresentsAt, CommitAllowed, EncodesFiles;
    EncodedRowsAreSelfKeyed(commit.collections, change.writes);
    RangeWithCollections(tables, commit.collections, c);
    var i :| 0 <= i < |commit.collections| && commit.collections[i].manifest.collection == c;
    assert EncodesCollection(commit.collections[i], change.writes);
    WrittenFiles(tables, store, commit, change, c);
  }

  lemma WrittenFiles(tables: Tables, store: Store, commit: StorageCommit, change: Change, c: Text)
    requires RepresentsAt(tables, store, c) && EncodesFiles(commit.files, change.writes) && CommitAllowed(store, change)
    requires c in change.writes && c in change.expected
    ensures Range(WithFileChanges(tables.files, commit.files), c)
        == Keyed(c, Installed(store, c, change.writes[c]).files)
  {
    hide Range, WithFileChanges, Keyed, RepresentsAt, CommitAllowed, BodiesAfter, BodiesIn, Removed;
    var write, bodies := change.writes[c], FilesAt(store, c);
    NoBodiesBefore(tables, store, change, c);
    RangeWithFileChanges(tables.files, commit.files, c, bodies);
    OneFileChange(bodies, commit.files, c);
    if j :| 0 <= j < |commit.files| && commit.files[j].collection == c {
      assert EncodesFile(commit.files[j], change.writes);
    } else {
      assert (bodies - write.removed) + write.added == bodies;
    }
  }

  lemma NoBodiesBefore(tables: Tables, store: Store, change: Change, c: Text)
    requires RepresentsAt(tables, store, c) && CommitAllowed(store, change) && c in change.expected
    ensures Range(tables.files, c) == Keyed(c, FilesAt(store, c))
  {
  }

  lemma EncodedRowsAreSelfKeyed(changes: seq<CollectionChange>, writes: map<Text, Write>)
    requires EncodesCollections(changes, writes)
    ensures SelfKeyed(changes)
  {
  }

  lemma UntouchedCollection(tables: Tables, store: Store, commit: StorageCommit, change: Change, c: Text)
    requires RepresentsAt(tables, store, c) && Encodes(commit, change) && c !in change.writes
    ensures RepresentsAt(Committed(tables, commit), ApplyChange(store, change), c)
  {
    hide WithRows, WithCollections, WithFileChanges, OwnRows, Keyed, Range;
    EncodedRowsAreSelfKeyed(commit.collections, change.writes);
    forall i | 0 <= i < |commit.collections| ensures commit.collections[i].manifest.collection != c {
      assert EncodesCollection(commit.collections[i], change.writes);
    }
    forall i | 0 <= i < |commit.files| ensures commit.files[i].collection != c {
      assert EncodesFile(commit.files[i], change.writes);
    }
    RangeWithCollections(tables, commit.collections, c);
    OtherFilesUntouched(tables.files, commit.files, c);
  }

  lemma {:induction false} OtherFilesUntouched(table: map<Key, Text>, changes: seq<FileChange>, c: Text)
    requires forall i :: 0 <= i < |changes| ==> changes[i].collection != c
    ensures Range(WithFileChanges(table, changes), c) == Range(table, c)
  {
    if changes != [] {
      var n := |changes| - 1;
      OtherFilesUntouched(table, changes[..n], c);
      OtherBodiesUntouched(WithFileChanges(table, changes[..n]), changes[n], |changes[n].remove|, |changes[n].writes|,
                           c);
      assert changes[n].remove[..|changes[n].remove|] == changes[n].remove
          && changes[n].writes[..|changes[n].writes|] == changes[n].writes;
    }
  }

  lemma {:induction false} OtherBodiesUntouched(table: map<Key, Text>, change: FileChange, removed: nat, put: nat,
                                                c: Text)
    requires change.collection != c && removed <= |change.remove| && put <= |change.writes|
    ensures Range(WithBodies(WithoutBodies(table, change.collection, change.remove[..removed]), change.collection,
                             change.writes[..put]), c) == Range(table, c)
  {
    if put > 0 {
      OtherBodiesUntouched(table, change, removed, put - 1, c);
      assert change.writes[..put][..put - 1] == change.writes[..put - 1];
    } else if removed > 0 {
      OtherBodiesUntouched(table, change, removed - 1, 0, c);
      assert change.remove[..removed][..removed - 1] == change.remove[..removed - 1];
    }
  }

  lemma {:induction false} RowsKeepOwnKeys(table: map<Key, StoredRecord>, rows: seq<StoredRecord>, c: Text)
    requires OwnKeys(table) && OwnRows(c, rows)
    ensures OwnKeys(WithRows(table, rows))
  {
    if rows != [] {
      RowsKeepOwnKeys(table, rows[..|rows| - 1], c);
    }
  }

  lemma {:induction false} CollectionsKeepOwnKeys(tables: Tables, changes: seq<CollectionChange>,
                                                  writes: map<Text, Write>)
    requires OwnKeys(tables.records) && forall i :: 0 <= i < |changes| ==> EncodesCollection(changes[i], writes)
    ensures OwnKeys(WithCollections(tables, changes).records)
  {
    if changes != [] {
      var n := |changes| - 1;
      CollectionsKeepOwnKeys(tables, changes[..n], writes);
      assert EncodesCollection(changes[n], writes);
      var before := WithCollections(tables, changes[..n]).records;
      RowsKeepOwnKeys(OutsideRange(before, changes[n].manifest.collection), changes[n].records,
                      changes[n].manifest.collection);
    }
  }

  /** Deletes, puts and file changes together install exactly the planned change, and touch nothing else. */
  lemma CommitRefines(tables: Tables, store: Store, commit: StorageCommit, change: Change)
    requires Represents(tables, store) && Encodes(commit, change) && CommitAllowed(store, change)
    requires change.writes.Keys <= change.expected.Keys
    ensures Represents(Committed(tables, commit), ApplyChange(store, change))
  {
    hide HoldsCollection, WithCollections, WithFileChanges, CommitAllowed, EncodesFiles, Installed;
    CollectionsKeepOwnKeys(tables, commit.collections, change.writes);
    forall c: Text ensures RepresentsAt(Committed(tables, commit), ApplyChange(store, change), c) {
      assert RepresentsAt(tables, store, c);
      if c in change.writes {
        WrittenCollection(tables, store, commit, change, c);
      } else {
        UntouchedCollection(tables, store, commit, change, c);
      }
    }
  }

  lemma PreparedRowsAreOwn(definition: Definition, codec: Codec, input: Json, nonces: nat -> nat)
    requires Prepared(definition, codec, input, nonces).Some?
    ensures OwnRows(definition.id, Prepared(definition, codec, input, nonces).value.records)
  {
  }

  /** The rows a planned change writes are filed under their own collection, one per lookup key. */
  lemma PlannedRowsAreOwn(cfg: Config, intent: Intent, seen: map<Text, Seen>, stamp: Stamp, c: Text)
    requires ValidConfig(cfg) && IntentOK(cfg, intent) && seen.Keys == intent.collections
    requires PlanOf(cfg, intent, seen, stamp).Proceed? && c in PlanOf(cfg, intent, seen, stamp).change.writes
    ensures OwnRows(c, PlanOf(cfg, intent, seen, stamp).change.writes[c].content.records)
  {
    hide DraftOf, OwnRows;
    var output := AnswerOf(intent, seen).value.0[c];
    DraftedRowsAreOwn(cfg, intent, c, seen[c], output, stamp);
  }

  lemma DraftedRowsAreOwn(cfg: Config, intent: Intent, c: Text, seen: Seen, output: Json, stamp: Stamp)
    requires ValidConfig(cfg) && IntentOK(cfg, intent) && c in intent.collections
    requires DraftOf(cfg, intent, c, seen, output, stamp).Drafted?
    ensures OwnRows(c, DraftOf(cfg, intent, c, seen, output, stamp).write.content.records)
  {
    hide OwnRows, Prepared;
    var definition := cfg.definitions[c];
    match intent {
      case Update(_, _, _, _) =>
          PreparedRowsAreOwn(definition, cfg.codec, definition.normalize(output).value, NoncesFor(stamp, c));
      case Create(_, seeds, _, _) => PreparedRowsAreOwn(definition, cfg.codec, seeds[c].input, NoncesFor(stamp, c));
      case Upgrade(_, _) => PreparedRowsAreOwn(definition, cfg.codec, seen.document, NoncesFor(stamp, c));
    }
  }

  // ---------- Capture reads the abstract collection ----------

  lemma {:induction false} RowsByKey(rows: seq<StoredRecord>, c: Text)
    requires OwnRows(c, rows)
    ensures forall k :: k in WithRows(map[], rows) <==> exists i :: 0 <= i < |rows| && rows[i].key == k
    ensures forall i :: 0 <= i < |rows| ==>
      rows[i].key in WithRows(map[], rows) && WithRows(map[], rows)[rows[i].key] == rows[i]
  {
    if rows != [] {
      var n := |rows| - 1;
      RowsByKey(rows[..n], c);
      var before := WithRows(map[], rows[..n]);
      forall k ensures k in before <==> exists i :: 0 <= i < n && rows[i].key == k {
        assert k in before <==> exists i :: 0 <= i < n && rows[..n][i].key == k;
      }
      forall i | 0 <= i < n
          ensures rows[i].key in before && before[rows[i].key] == rows[i] && rows[i].key != rows[n].key {
        assert rows[..n][i] == rows[i];
      }
    }
  }

  lemma SameWithoutRepeats<T>(a: seq<T>, b: seq<T>)
    requires forall x :: x in a <==> x in b
    requires forall i, j :: 0 <= i < j < |a| ==> a[i] != a[j]
    requires forall i, j :: 0 <= i < j < |b| ==> b[i] != b[j]
    ensures Rearranged(a, b)
  {
    forall x ensures multiset(a)[x] == multiset(b)[x] {
      if multiset(a)[x] >= 2 {
        RepeatedAtTwoPositions(a, x);
      }
      if multiset(b)[x] >= 2 {
        RepeatedAtTwoPositions(b, x);
      }
      assert x in a <==> x in multiset(a);
      assert x in b <==> x in multiset(b);
    }
  }

  /** Whatever order the cursor took, it returned the collection's records. */
  lemma CursorIsRearrangement(tables: Tables, store: Store, c: Text, keys: seq<Key>, rows: seq<StoredRecord>)
    requires Represents(tables, store) && c in store.held && Lists(keys, rows, tables.records, c)
    ensures Rearranged(rows, store.held[c].records)
  {
    var held := store.held[c].records;
    assert RepresentsAt(tables, store, c);
    RowsByKey(held, c);
    var range := Range(tables.records, c);
    forall row ensures row in rows <==> row in held {
      if row in rows {
        var i :| 0 <= i < |rows| && rows[i] == row;
        assert keys[i] in range && range[keys[i]] == row;
      }
      if row in held {
        assert row.key in range && range[row.key] == row;
        assert row.key in keys;
      }
    }
    SameWithoutRepeats(rows, held);
  }

  /**
   A snapshot of a represented collection is within its bounds and decodes to the
   collection's document, in any cursor order.
   */
  lemma CaptureReadsBack(cfg: Config, tables: Tables, store: Store, c: Text, keys: seq<Key>, rows: seq<StoredRecord>)
    requires Represents(tables, store) && StoreOK(cfg, store) && c in store.held
    requires Lists(keys, rows, tables.records, c) && CollectionBudget(cfg.definitions[c], cfg.codec).Some?
    ensures ManifestIn(tables, c) == Some(store.held[c].manifest)
    ensures ManifestReadable(cfg.definitions[c], store.held[c].manifest) && store.held[c].manifest.codec == cfg.codec.id
    ensures Bounded(cfg.definitions[c], cfg.codec, rows)
    ensures Decoded(cfg.definitions[c], cfg.codec, store.held[c].manifest, rows) == Some(store.held[c].document)
  {
    hide Lists, Rebuilt, Verifiable;
    var held := store.held[c];
    assert RepresentsAt(tables, store, c);
    assert HeldOK(cfg, c, held);
    CursorIsRearrangement(tables, store, c, keys, rows);
    CursorOrderNeverMatters(cfg.definitions[c], cfg.codec, held.manifest, rows, held.records);
    assert Verifiable(cfg.definitions[c], cfg.codec, rows);
  }

  /**
   The bounded cursor admits what the writer admitted, in every order, with one
   exception: an empty collection whose codec declares no usable collection
   budget is written without asking for that budget, and then cannot be read.
   */
  lemma WriterAdmitsWhatCursorReads(definition: Definition, codec: Codec, input: Json, nonces: nat -> nat,
                                    arrived: seq<StoredRecord>)
    requires Prepared(definition, codec, input, nonces).Some?
    requires Rearranged(arrived, Prepared(definition, codec, input, nonces).value.records)
    ensures Bounded(definition, codec, arrived) <==> (arrived == [] ==> CollectionBudget(definition, codec).Some?)
  {
    hide Verifiable, CollectionBudget, StoredForms, CollectionDigest, AllStorable;
    var records := Prepared(definition, codec, input, nonces).value.records;
    SameSize(arrived, records);
    StoredFormsVerify(definition, codec, definition.normalize(input).value, nonces);
    VerifiableIgnoresOrder(definition, codec, records, arrived);
    if arrived != [] {
      VerifiableHasBudgets(definition, codec, arrived);
    }
  }

  /**
   Such a collection exists under the plaintext codec: a registered definition
   whose byte limit is a safe integer but twice it is not.
   */
  lemma EmptyCollectionCannotBeRead() returns (definition: Definition, codec: Codec, input: Json, nonces: nat -> nat)
    ensures 1 <= definition.maximumBytes <= MAX_SAFE_INTEGER && codec.encodedBytes.None?
    ensures Prepared(definition, codec, input, nonces).Some?
        && Prepared(definition, codec, input, nonces).value.records == []
    ensures !Bounded(definition, codec, [])
  {
    var digest: Text := seq(43, _ => 0x41 as CodeUnit);
    definition :=
        Definition([0x61], [0x61], 1, 1, MAX_SAFE_INTEGER, 1, (x: Json) => Some(x), (x: Json) => [], (x: Json) => [],
                             (records: seq<LocalRecord>, version: int) => Json.Null, (x: Json) => {});
    codec := Codec([0x61], None, (x: EncodeInput) => None, (x: DecodeInput) => None, (x: DigestInput) => digest,
                   (c: Text, d: Text) => d);
    input, nonces := Json.Null, (i: nat) => 0;
    assert IsDigest(digest);
    assert StoredForms(definition, codec, [], nonces) == [];
  }

  lemma VerifiableHasBudgets(definition: Definition, codec: Codec, rows: seq<StoredRecord>)
    requires Verifiable(definition, codec, rows) && rows != []
    ensures CollectionBudget(definition, codec).Some?
  {
  }
}

/**
 One attempt of an update: the abstract store of versioned collections, the
 change an attempt plans from the collections it has seen, and the
 compare-and-swap that installs the change.

 A collection is held as its manifest, its stored records, the document they
 decode to and its retained file bodies by lookup key. `IndexedDbStorage`
 relates this to the keyed object stores.
 */
module CommitPlan {
  import opened Basics
  import opened LocalDataContent

  datatype Config = Config(definitions: map<Text, Definition>, codec: Codec)

  /**
   Every tab runs the same build: lawful definitions under their own identifiers,
   one codec, file keys that identify content.
   */
  ghost predicate ValidConfig(cfg: Config)
  {
    && (forall c :: c in cfg.definitions ==> cfg.definitions[c].id == c && LawfulDefinition(cfg.definitions[c]))
    && LawfulCodec(cfg.codec) && InjectiveDigest(cfg.codec)
    && (forall c: Text, d: Text, e: Text {:trigger cfg.codec.fileKey(c, d), cfg.codec.fileKey(c, e)} ::
          cfg.codec.fileKey(c, d) == cfg.codec.fileKey(c, e) ==> d == e)
  }

  // ---------- Store ----------

  datatype Held = Held(manifest: Manifest, records: seq<StoredRecord>, document: Json, files: map<Text, Text>)

  /** `stray` names collections that have records or files left over but no manifest. */
  datatype Store = Store(held: map<Text, Held>, stray: set<Text>)

  function ManifestAt(store: Store, c: Text): Option<Manifest>
  {
    if c in store.held then Some(store.held[c].manifest) else None
  }

  function FilesAt(store: Store, c: Text): map<Text, Text>
  {
    if c in store.held then store.held[c].files else map[]
  }

  datatype Seen = Absent | Present(manifest: Manifest, document: Json)

  function SeenAt(store: Store, c: Text): Seen
  {
    if c in store.held then Present(store.held[c].manifest, store.held[c].document) else Absent
  }

  function SeenIn(store: Store, collections: set<Text>): map<Text, Seen>
  {
    map c | c in collections :: SeenAt(store, c)
  }

  // ---------- Changes ----------

  datatype Write = Write(content: Content, manifest: Manifest, removed: set<Text>, added: map<Text, Text>)

  datatype Change = Change(expected: map<Text, Option<Manifest>>, writes: map<Text, Write>)

  predicate Matches(store: Store, expected: map<Text, Option<Manifest>>)
  {
    forall c :: c in expected ==> ManifestAt(store, c) == expected[c]
  }

  predicate ReplacesStray(store: Store, change: Change)
  {
    exists c :: c in change.expected && change.expected[c].None? && c in store.stray
  }

  predicate CommitAllowed(store: Store, change: Change)
  {
    Matches(store, change.expected) && !ReplacesStray(store, change)
  }

  function Installed(store: Store, c: Text, write: Write): Held
  {
    Held(write.manifest, write.content.records, write.content.document,
         (FilesAt(store, c) - write.removed) + write.added)
  }

  function ApplyChange(store: Store, change: Change): Store
  {
    store.(held := store.held + map c | c in change.writes :: Installed(store, c, change.writes[c]))
  }

  // ---------- Intents ----------

  /** A selected file as `#encodeBinaryFiles` leaves it, under the codec's lookup key for its digest. */
  datatype SelectedFile = SelectedFile(reference: FileReference, payload: Text)

  datatype Seed = Seed(input: Json, source: Source, legacyDigest: Option<Text>)

  type Updater = map<Text, Json> -> Option<(map<Text, Json>, Json)>

  /**
   What a transaction is for: a pure update of some collections with files to
   retain (`updateMany` when `batch`, `update` otherwise); creation of the absent
   ones from their seeds; or the rewrite of collections found in an older schema
   version by initialisation `call`. A legacy document that cannot be read or
   parsed leaves its collection without a seed.
   */
  datatype Intent =
    | Update(collections: set<Text>, updater: Updater, files: map<Text, map<Text, SelectedFile>>, batch: bool)
    | Create(collections: set<Text>, seeds: map<Text, Seed>, existingOnly: bool, approved: set<Text>)
    | Upgrade(collections: set<Text>, call: nat)

  /** A workspace that requires existing collections creates only those its caller approved. */
  predicate MayCreate(intent: Intent, c: Text)
    requires intent.Create?
  {
    !intent.existingOnly || c in intent.approved
  }

  predicate KeyedByContent(cfg: Config, c: Text, files: map<Text, SelectedFile>)
  {
    forall k :: k in files ==> k == cfg.codec.fileKey(c, files[k].reference.digest)
  }

  predicate IntentOK(cfg: Config, intent: Intent)
  {
    && intent.collections != {}
    && intent.collections <= cfg.definitions.Keys
    && (intent.Update? && !intent.batch ==> |intent.collections| == 1)
    && (intent.Update? ==>
          forall c :: c in intent.files ==> c in intent.collections && KeyedByContent(cfg, c, intent.files[c]))
  }

  /** What the outside world supplies to one commit: the clock and the codec's nonces. */
  datatype Stamp = Stamp(updatedAt: nat, nonces: (Text, nat) -> nat)

  function NoncesFor(stamp: Stamp, c: Text): nat -> nat { (i: nat) => stamp.nonces(c, i) }

  // ---------- Retained files ----------

  /** `collectionBinaryReferences` refuses one digest with two lengths. */
  predicate ConsistentReferences(references: set<FileReference>)
  {
    forall a, b :: a in references && b in references && a.digest == b.digest ==> a == b
  }

  function FileKeys(cfg: Config, c: Text, references: set<FileReference>): set<Text>
  {
    set r | r in references :: cfg.codec.fileKey(c, r.digest)
  }

  function Dropped(previous: set<FileReference>, next: set<FileReference>): set<FileReference>
  {
    set r | r in previous && !exists n :: n in next && n.digest == r.digest
  }

  function FilesFor(intent: Intent, c: Text): map<Text, SelectedFile>
  {
    if intent.Update? && c in intent.files then intent.files[c] else map[]
  }

  predicate FilesReferenced(files: map<Text, SelectedFile>, references: set<FileReference>)
  {
    forall k :: k in files ==> files[k].reference in references
  }

  function Bodies(files: map<Text, SelectedFile>): map<Text, Text>
  {
    map k | k in files :: files[k].payload
  }

  // ---------- Planning ----------

  datatype Draft = Refused | Untouched | Drafted(write: Write)

  /**
   The updater returned what the collection already holds in the current schema
   version, and no file is to be kept.
   */
  predicate SameDocument(definition: Definition, seen: Seen, normal: Json, files: map<Text, SelectedFile>)
    requires seen.Present?
  {
    && files == map[] && seen.manifest.schemaVersion == definition.schemaVersion
    && definition.serialize(normal) == definition.serialize(seen.document)
  }

  /**
   What an update does to one collection it has seen, given the updater's output
   for it. A single update returns before it looks at file references when the
   document is unchanged; a batch looks at them for every collection.
   */
  function DraftUpdate(cfg: Config, c: Text, seen: Seen, output: Json, files: map<Text, SelectedFile>, batch: bool,
                       stamp: Stamp): Draft
    requires c in cfg.definitions
  {
    var definition := cfg.definitions[c];
    if seen.Absent? then Refused
    else
      var normal := definition.normalize(output);
      if normal.None? then Refused
      else if !batch && SameDocument(definition, seen, normal.value, files) then Untouched
      else
        var previous, next := definition.references(seen.document), definition.references(normal.value);
        if !ConsistentReferences(previous) || !ConsistentReferences(next) || !FilesReferenced(files, next) then Refused
        else
          var removed := FileKeys(cfg, c, Dropped(previous, next));
          if SameDocument(definition, seen, normal.value, files) then if removed == {} then Untouched else Refused
          else
            var content := Prepared(definition, cfg.codec, normal.value, NoncesFor(stamp, c));
            if content.None? then Refused
            else if files == map[] && ContentMatches(definition, cfg.codec, content.value, seen.manifest)
            then if removed == {} || !batch then Untouched else Refused
            else
              var manifest :=
                  ProposedManifest(definition, cfg.codec, content.value, Application, seen.manifest.legacyDigest,
                                               seen.manifest.revision, stamp.updatedAt);
              if !ManifestReadable(definition, manifest) then Refused
              else Drafted(Write(content.value, manifest, removed, Bodies(files)))
  }

  /**
   What initialisation does to one collection: nothing when present, the prepared
   seed when absent. An approved creation never replaces a retained legacy document.
   */
  function DraftCreate(cfg: Config, c: Text, seen: Seen, seed: Option<Seed>, approved: bool, stamp: Stamp): Draft
    requires c in cfg.definitions
  {
    var definition := cfg.definitions[c];
    if seen.Present? then Untouched
    else if seed.None? || (approved && seed.value.source == LegacyLocalStorage) then Refused
    else
      var content := Prepared(definition, cfg.codec, seed.value.input, NoncesFor(stamp, c));
      if content.None? then Refused
      else
        var manifest :=
            ProposedManifest(definition, cfg.codec, content.value, seed.value.source, seed.value.legacyDigest, 0,
                                         stamp.updatedAt);
        if !ManifestReadable(definition, manifest) then Refused
        else Drafted(Write(content.value, manifest, {}, map[]))
  }

  /** What the rewrite of an older schema version does to one collection: the document read, in its current form. */
  function DraftUpgrade(cfg: Config, c: Text, seen: Seen, stamp: Stamp): Draft
    requires c in cfg.definitions
  {
    var definition := cfg.definitions[c];
    if seen.Absent? then Refused
    else
      var content := Prepared(definition, cfg.codec, seen.document, NoncesFor(stamp, c));
      if content.None? then Refused
      else
        var manifest := ProposedManifest(definition, cfg.codec, content.value, Application, seen.manifest.legacyDigest,
                                         seen.manifest.revision, stamp.updatedAt);
        if !ManifestReadable(definition, manifest) then Refused
        else Drafted(Write(content.value, manifest, {}, map[]))
  }

  datatype Plan = Reject | Keep(result: Json) | Proceed(change: Change, result: Json)

  function Documents(seen: map<Text, Seen>): map<Text, Json>
  {
    map c | c in seen && seen[c].Present? :: seen[c].document
  }

  function ExpectedOf(seen: map<Text, Seen>): map<Text, Option<Manifest>>
  {
    map c | c in seen :: if seen[c].Present? then Some(seen[c].manifest) else None
  }

  /** The documents to create; a collection without a seed is refused before its input matters. */
  function SeedInputs(intent: Intent): map<Text, Json>
    requires intent.Create?
  {
    map c | c in intent.collections :: if c in intent.seeds then intent.seeds[c].input else Json.Null
  }

  function SeedFor(intent: Intent, c: Text): Option<Seed>
    requires intent.Create?
  {
    if c in intent.seeds then Some(intent.seeds[c]) else None
  }

  /** The updater's answer, when it returned a document for every collection. */
  function AnswerOf(intent: Intent, seen: map<Text, Seen>): Option<(map<Text, Json>, Json)>
  {
    match intent
    case Update(collections, updater, _, _) =>
      var answer := updater(Documents(seen));
      if answer.None? || !(collections <= answer.value.0.Keys) then None else answer
    case Create(_, _, _, _) => Some((SeedInputs(intent), Json.Null))
    case Upgrade(collections, _) =>
      if collections <= Documents(seen).Keys then Some((Documents(seen), Json.Null)) else None
  }

  function DraftOf(cfg: Config, intent: Intent, c: Text, seen: Seen, output: Json, stamp: Stamp): Draft
    requires IntentOK(cfg, intent) && c in intent.collections
  {
    match intent
    case Update(_, _, _, batch) => DraftUpdate(cfg, c, seen, output, FilesFor(intent, c), batch, stamp)
    case Create(_, _, _, approved) => DraftCreate(cfg, c, seen, SeedFor(intent, c), c in approved, stamp)
    case Upgrade(_, _) => DraftUpgrade(cfg, c, seen, stamp)
  }

  function Assembled(seen: map<Text, Seen>, drafts: map<Text, Draft>, result: Json): Plan
  {
    if exists c :: c in drafts && drafts[c].Refused? then Reject
    else
      var writes := map c | c in drafts && drafts[c].Drafted? :: drafts[c].write;
      if writes == map[] then Keep(result) else Proceed(Change(ExpectedOf(seen), writes), result)
  }

  function DraftsOf(cfg: Config, intent: Intent, seen: map<Text, Seen>, outputs: map<Text, Json>,
                    stamp: Stamp): map<Text, Draft>
    requires IntentOK(cfg, intent) && seen.Keys == intent.collections && intent.collections <= outputs.Keys
  {
    map c | c in intent.collections :: DraftOf(cfg, intent, c, seen[c], outputs[c], stamp)
  }

  /** The whole decision of one attempt, from what it saw. */
  function PlanOf(cfg: Config, intent: Intent, seen: map<Text, Seen>, stamp: Stamp): Plan
    requires IntentOK(cfg, intent) && seen.Keys == intent.collections
  {
    var answer := AnswerOf(intent, seen);
    if answer.None? then Reject
    else Assembled(seen, DraftsOf(cfg, intent, seen, answer.value.0, stamp), answer.value.1)
  }
}

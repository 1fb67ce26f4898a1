/**
 What one planned change guarantees when it lands on exactly the collections it
 was planned from: every collection stays readable, retained files follow the
 document's references, and the documents move as the caller's updater says.
 */
module CommitPlanLaws {
  import opened Basics
  import opened LocalDataContent
  import LocalDataRoundTrip
  import opened Permutations
  import opened CommitPlan

  // ---------- Store invariant ----------

  /** The collection reads back as its document, and every file body belongs to one of the document's references. */
  ghost predicate HeldOK(cfg: Config, c: Text, held: Held)
  {
    && c in cfg.definitions
    && Decoded(cfg.definitions[c], cfg.codec, held.manifest, held.records) == Some(held.document)
    && held.files.Keys <= FileKeys(cfg, c, cfg.definitions[c].references(held.document))
  }

  ghost predicate StoreOK(cfg: Config, store: Store)
  {
    forall c :: c in store.held ==> HeldOK(cfg, c, store.held[c])
  }

  // ---------- Shape of a plan ----------

  ghost predicate WriteFollows(cfg: Config, c: Text, seen: Seen, write: Write, stamp: Stamp)
  {
    && c in cfg.definitions
    && ManifestReadable(cfg.definitions[c], write.manifest)
    && write.manifest.updatedAt == stamp.updatedAt
    && write.manifest.revision == (if seen.Present? then seen.manifest.revision + 1 else 1)
    && ContentMatches(cfg.definitions[c], cfg.codec, write.content, write.manifest)
  }

  lemma DraftShape(cfg: Config, intent: Intent, c: Text, seen: Seen, output: Json, stamp: Stamp)
    requires IntentOK(cfg, intent) && c in intent.collections
    requires DraftOf(cfg, intent, c, seen, output, stamp).Drafted?
    ensures WriteFollows(cfg, c, seen, DraftOf(cfg, intent, c, seen, output, stamp).write, stamp)
    ensures seen.Absent? <==> intent.Create?
    ensures intent.Create? ==> c in intent.seeds
  {
  }

  /** Creation plans a write of every collection it saw absent. */
  lemma AbsentIsDrafted(cfg: Config, intent: Intent, seen: map<Text, Seen>, stamp: Stamp, c: Text)
    requires IntentOK(cfg, intent) && intent.Create? && seen.Keys == intent.collections && c in seen && seen[c].Absent?
    requires PlanOf(cfg, intent, seen, stamp).Proceed?
    ensures c in PlanOf(cfg, intent, seen, stamp).change.writes
  {
    hide DraftCreate;
    var drafts := DraftsOf(cfg, intent, seen, AnswerOf(intent, seen).value.0, stamp);
    assert drafts[c].Drafted? by { CreatesOrRefuses(cfg, intent, c, stamp); }
  }

  lemma CreatesOrRefuses(cfg: Config, intent: Intent, c: Text, stamp: Stamp)
    requires IntentOK(cfg, intent) && intent.Create? && c in intent.collections
    ensures !DraftCreate(cfg, c, Absent, SeedFor(intent, c), c in intent.approved, stamp).Untouched?
  {
  }

  lemma PlanShape(cfg: Config, intent: Intent, seen: map<Text, Seen>, stamp: Stamp)
    requires IntentOK(cfg, intent) && seen.Keys == intent.collections
    requires PlanOf(cfg, intent, seen, stamp).Proceed?
    ensures var change := PlanOf(cfg, intent, seen, stamp).change;
      && change.expected == ExpectedOf(seen) && change.expected.Keys == intent.collections
      && change.writes != map[] && change.writes.Keys <= intent.collections
      && (forall c :: c in change.writes ==> WriteFollows(cfg, c, seen[c], change.writes[c], stamp))
      && (forall c :: c in change.writes ==> (seen[c].Absent? <==> intent.Create?))
      && (intent.Create? ==> forall c :: c in change.writes <==> c in seen && seen[c].Absent?)
  {
    hide DraftOf, WriteFollows;
    var change := PlanOf(cfg, intent, seen, stamp).change;
    var outputs := AnswerOf(intent, seen).value.0;
    forall c | c in change.writes
      ensures WriteFollows(cfg, c, seen[c], change.writes[c], stamp) && (seen[c].Absent? <==> intent.Create?)
    {
      DraftShape(cfg, intent, c, seen[c], outputs[c], stamp);
    }
    if intent.Create? {
      forall c | c in seen && seen[c].Absent? ensures c in change.writes {
        AbsentIsDrafted(cfg, intent, seen, stamp, c);
      }
    }
  }

  // ---------- Files ----------

  /** Bodies of dropped references go, selected bodies arrive, and no key is both deleted and written. */
  lemma FileKeysAreDisjoint(cfg: Config, c: Text, seen: Seen, output: Json, files: map<Text, SelectedFile>,
                            batch: bool, stamp: Stamp)
    requires ValidConfig(cfg) && c in cfg.definitions && KeyedByContent(cfg, c, files)
    requires DraftUpdate(cfg, c, seen, output, files, batch, stamp).Drafted?
    ensures var write := DraftUpdate(cfg, c, seen, output, files, batch, stamp).write;
      && write.removed !! write.added.Keys
      && write.removed !! FileKeys(cfg, c, cfg.definitions[c].references(write.content.document))
      && write.added.Keys <= FileKeys(cfg, c, cfg.definitions[c].references(write.content.document))
  {
    var definition := cfg.definitions[c];
    var write := DraftUpdate(cfg, c, seen, output, files, batch, stamp).write;
    var normal := definition.normalize(output).value;
    assert Normal(definition, normal);
    assert write.content.document == normal;
    var next := definition.references(normal);
    forall k | k in write.removed ensures k !in FileKeys(cfg, c, next) {
      var r :| r in Dropped(definition.references(seen.document), next) && k == cfg.codec.fileKey(c, r.digest);
      assert forall n :: n in next ==> n.digest != r.digest;
    }
    forall k | k in write.added ensures k in FileKeys(cfg, c, next) {
      assert files[k].reference in next;
    }
  }

  /**
   A body stays stored across a commit exactly when it was stored and its
   reference survives, or it is newly selected.
   */
  lemma ReferencedFilesSurvive(cfg: Config, store: Store, c: Text, output: Json, files: map<Text, SelectedFile>,
                               batch: bool, stamp: Stamp, k: Text)
    requires ValidConfig(cfg) && c in cfg.definitions && KeyedByContent(cfg, c, files)
    requires c in store.held && HeldOK(cfg, c, store.held[c])
    requires DraftUpdate(cfg, c, SeenAt(store, c), output, files, batch, stamp).Drafted?
    ensures var write := DraftUpdate(cfg, c, SeenAt(store, c), output, files, batch, stamp).write;
      k in Installed(store, c, write).files <==>
        k in files || (k in store.held[c].files
                       && k in FileKeys(cfg, c, cfg.definitions[c].references(write.content.document)))
  {
    var definition := cfg.definitions[c];
    var write := DraftUpdate(cfg, c, SeenAt(store, c), output, files, batch, stamp).write;
    var normal := definition.normalize(output).value;
    assert Normal(definition, normal);
    var previous, next := definition.references(store.held[c].document), definition.references(normal);
    FileKeysAreDisjoint(cfg, c, SeenAt(store, c), output, files, batch, stamp);
    if k in store.held[c].files && k !in FileKeys(cfg, c, next) {
      var r :| r in previous && k == cfg.codec.fileKey(c, r.digest);
      assert forall n :: n in next ==> cfg.codec.fileKey(c, n.digest) in FileKeys(cfg, c, next);
      assert r in Dropped(previous, next);
      assert k in write.removed;
    }
  }

  // ---------- Landing keeps the invariant ----------

  lemma PreparedIsHeldOK(cfg: Config, c: Text, input: Json, nonces: nat -> nat, manifest: Manifest)
    requires ValidConfig(cfg) && c in cfg.definitions
    requires Prepared(cfg.definitions[c], cfg.codec, input, nonces).Some?
    requires ManifestReadable(cfg.definitions[c], manifest)
    requires ContentMatches(cfg.definitions[c], cfg.codec,
                            Prepared(cfg.definitions[c], cfg.codec, input, nonces).value, manifest)
    ensures var content := Prepared(cfg.definitions[c], cfg.codec, input, nonces).value;
      Decoded(cfg.definitions[c], cfg.codec, manifest, content.records) == Some(content.document)
          == cfg.definitions[c].normalize(input)
  {
    var content := Prepared(cfg.definitions[c], cfg.codec, input, nonces).value;
    LocalDataRoundTrip.PreparedDocumentReadsBack(cfg.definitions[c], cfg.codec, input, nonces, manifest,
                                                 content.records);
  }

  lemma UpdateLandsOK(cfg: Config, store: Store, c: Text, output: Json, files: map<Text, SelectedFile>, batch: bool,
                      stamp: Stamp)
    requires ValidConfig(cfg) && c in cfg.definitions && KeyedByContent(cfg, c, files)
    requires c in store.held && HeldOK(cfg, c, store.held[c])
    requires DraftUpdate(cfg, c, SeenAt(store, c), output, files, batch, stamp).Drafted?
    ensures var write := DraftUpdate(cfg, c, SeenAt(store, c), output, files, batch, stamp).write;
      HeldOK(cfg, c, Installed(store, c, write)) && Some(write.content.document) == cfg.definitions[c].normalize(output)
  {
    var definition := cfg.definitions[c];
    var write := DraftUpdate(cfg, c, SeenAt(store, c), output, files, batch, stamp).write;
    var normal := definition.normalize(output).value;
    assert Normal(definition, normal);
    PreparedIsHeldOK(cfg, c, normal, NoncesFor(stamp, c), write.manifest);
    FileKeysAreDisjoint(cfg, c, SeenAt(store, c), output, files, batch, stamp);
    forall k | k in Installed(store, c, write).files
      ensures k in FileKeys(cfg, c, definition.references(write.content.document))
    {
      ReferencedFilesSurvive(cfg, store, c, output, files, batch, stamp, k);
    }
  }

  lemma CreateLandsOK(cfg: Config, store: Store, c: Text, seed: Option<Seed>, approved: bool, stamp: Stamp)
    requires ValidConfig(cfg) && c in cfg.definitions && c !in store.held
    requires DraftCreate(cfg, c, Absent, seed, approved, stamp).Drafted?
    ensures var write := DraftCreate(cfg, c, Absent, seed, approved, stamp).write;
      && seed.Some? && HeldOK(cfg, c, Installed(store, c, write))
      && Some(write.content.document) == cfg.definitions[c].normalize(seed.value.input)
  {
    var write := DraftCreate(cfg, c, Absent, seed, approved, stamp).write;
    PreparedIsHeldOK(cfg, c, seed.value.input, NoncesFor(stamp, c), write.manifest);
  }

  lemma UpgradeLandsOK(cfg: Config, store: Store, c: Text, stamp: Stamp)
    requires ValidConfig(cfg) && c in store.held && HeldOK(cfg, c, store.held[c])
    requires DraftUpgrade(cfg, c, SeenAt(store, c), stamp).Drafted?
    ensures var write := DraftUpgrade(cfg, c, SeenAt(store, c), stamp).write;
      HeldOK(cfg, c, Installed(store, c, write)) && write.content.document == store.held[c].document
    ensures Normal(cfg.definitions[c], store.held[c].document)
  {
    var write := DraftUpgrade(cfg, c, SeenAt(store, c), stamp).write;
    PreparedIsHeldOK(cfg, c, store.held[c].document, NoncesFor(stamp, c), write.manifest);
    HeldIsNormal(cfg, c, store.held[c]);
  }

  lemma HeldIsNormal(cfg: Config, c: Text, held: Held)
    requires ValidConfig(cfg) && HeldOK(cfg, c, held)
    ensures Normal(cfg.definitions[c], held.document)
  {
  }

  /** The output drafted for a collection is its seed's input or, for an upgrade, its own document. */
  ghost predicate OutputOf(store: Store, intent: Intent, c: Text, output: Json)
  {
    && (intent.Create? && c in intent.seeds ==> output == intent.seeds[c].input)
    && (intent.Upgrade? ==> c in store.held && output == store.held[c].document)
  }

  /** One drafted collection lands readable, holding the normal form of its output. */
  lemma DraftLandsOK(cfg: Config, store: Store, intent: Intent, c: Text, output: Json, stamp: Stamp)
    requires ValidConfig(cfg) && StoreOK(cfg, store) && IntentOK(cfg, intent) && c in intent.collections
    requires OutputOf(store, intent, c, output)
    requires DraftOf(cfg, intent, c, SeenAt(store, c), output, stamp).Drafted?
    ensures var write := DraftOf(cfg, intent, c, SeenAt(store, c), output, stamp).write;
      HeldOK(cfg, c, Installed(store, c, write)) && Some(write.content.document) == cfg.definitions[c].normalize(output)
  {
    match intent {
      case Update(_, _, _, batch) => UpdateLandsOK(cfg, store, c, output, FilesFor(intent, c), batch, stamp);
      case Create(_, _, _, approved) => CreateLandsOK(cfg, store, c, SeedFor(intent, c), c in approved, stamp);
      case Upgrade(_, _) => UpgradeLandsOK(cfg, store, c, stamp);
    }
  }

  lemma ChangeKeepsStoreOK(cfg: Config, store: Store, change: Change)
    requires StoreOK(cfg, store)
    requires forall c :: c in change.writes ==> HeldOK(cfg, c, Installed(store, c, change.writes[c]))
    ensures StoreOK(cfg, ApplyChange(store, change))
  {
  }

  /** A change planned from the current collections leaves every collection readable and every file body referenced. */
  lemma LandingKeepsStoreOK(cfg: Config, store: Store, intent: Intent, stamp: Stamp)
    requires ValidConfig(cfg) && StoreOK(cfg, store) && IntentOK(cfg, intent)
    requires PlanOf(cfg, intent, SeenIn(store, intent.collections), stamp).Proceed?
    ensures StoreOK(cfg, ApplyChange(store, PlanOf(cfg, intent, SeenIn(store, intent.collections), stamp).change))
  {
    hide DraftOf, HeldOK, PlanOf, Installed, OutputOf;
    var seen := SeenIn(store, intent.collections);
    var change := PlanOf(cfg, intent, seen, stamp).change;
    forall c | c in change.writes ensures HeldOK(cfg, c, Installed(store, c, change.writes[c])) {
      WriteIsDraft(cfg, intent, seen, stamp, c);
      var outputs := AnswerOf(intent, seen).value.0;
      AnswersAreOutputs(cfg, store, intent, c);
      DraftLandsOK(cfg, store, intent, c, outputs[c], stamp);
    }
    ChangeKeepsStoreOK(cfg, store, change);
  }

  lemma AnswersAreOutputs(cfg: Config, store: Store, intent: Intent, c: Text)
    requires c in intent.collections && AnswerOf(intent, SeenIn(store, intent.collections)).Some?
    ensures c in AnswerOf(intent, SeenIn(store, intent.collections)).value.0
    ensures OutputOf(store, intent, c, AnswerOf(intent, SeenIn(store, intent.collections)).value.0[c])
  {
  }

  /** Each write of a plan is the draft of its collection. */
  lemma WriteIsDraft(cfg: Config, intent: Intent, seen: map<Text, Seen>, stamp: Stamp, c: Text)
    requires IntentOK(cfg, intent) && seen.Keys == intent.collections
    requires PlanOf(cfg, intent, seen, stamp).Proceed? && c in PlanOf(cfg, intent, seen, stamp).change.writes
    ensures AnswerOf(intent, seen).Some? && c in intent.collections && c in AnswerOf(intent, seen).value.0
    ensures DraftOf(cfg, intent, c, seen[c], AnswerOf(intent, seen).value.0[c], stamp)
        == Drafted(PlanOf(cfg, intent, seen, stamp).change.writes[c])
  {
    hide DraftOf;
  }

  // ---------- Plain-document meaning ----------

  function DocumentsOf(store: Store): map<Text, Json>
  {
    map c | c in store.held :: store.held[c].document
  }

  function NormalOr(definition: Definition, input: Json): Json
  {
    var normal := definition.normalize(input);
    if normal.Some? then normal.value else input
  }

  function Named(documents: map<Text, Json>, collections: set<Text>): map<Text, Json>
  {
    map c | c in collections && c in documents :: documents[c]
  }

  function SerialAnswer(documents: map<Text, Json>, intent: Intent): Option<(map<Text, Json>, Json)>
  {
    match intent
    case Update(collections, updater, _, _) =>
      var answer := updater(Named(documents, collections));
      if answer.None? || !(collections <= answer.value.0.Keys) then None else answer
    case Create(_, _, _, _) => Some((SeedInputs(intent), Json.Null))
    case Upgrade(collections, _) =>
      if collections <= documents.Keys then Some((Named(documents, collections), Json.Null)) else None
  }

  /** An intent applied to bare documents: no manifests, revisions, records, retries or skipped writes. */
  function SerialStep(cfg: Config, documents: map<Text, Json>, intent: Intent): (map<Text, Json>, Json)
    requires IntentOK(cfg, intent)
  {
    var answer := SerialAnswer(documents, intent);
    if answer.None? then (documents, Json.Null)
    else
      var changing := if intent.Create? then intent.collections - documents.Keys else intent.collections;
      (documents + map c | c in changing :: NormalOr(cfg.definitions[c], answer.value.0[c]), answer.value.1)
  }

  /** Rewriting an older schema version is invisible to the documents. */
  lemma UpgradeChangesNoDocument(cfg: Config, store: Store, intent: Intent)
    requires ValidConfig(cfg) && StoreOK(cfg, store) && IntentOK(cfg, intent) && intent.Upgrade?
    ensures SerialStep(cfg, DocumentsOf(store), intent) == (DocumentsOf(store), Json.Null)
  {
    hide HeldOK, LawfulDefinition;
    var documents := DocumentsOf(store);
    if intent.collections <= documents.Keys {
      forall c | c in intent.collections ensures NormalOr(cfg.definitions[c], documents[c]) == documents[c] {
        HeldIsNormal(cfg, c, store.held[c]);
      }
      assert SerialStep(cfg, documents, intent).0 == documents;
    }
  }

  /** A collection left untouched by an update already holds the updater's output. */
  lemma UntouchedMeansEqual(cfg: Config, store: Store, c: Text, output: Json, files: map<Text, SelectedFile>,
                            batch: bool, stamp: Stamp)
    requires ValidConfig(cfg) && c in cfg.definitions
    requires c in store.held ==> HeldOK(cfg, c, store.held[c])
    requires DraftUpdate(cfg, c, SeenAt(store, c), output, files, batch, stamp) == Untouched
    ensures c in store.held && cfg.definitions[c].normalize(output) == Some(store.held[c].document)
  {
    var definition := cfg.definitions[c];
    var held := store.held[c];
    var normal := definition.normalize(output).value;
    assert Normal(definition, normal);
    assert Normal(definition, held.document);
    if !SameDocument(definition, SeenAt(store, c), normal, files) {
      LocalDataRoundTrip.MatchingContentIsSameDocument(definition, cfg.codec, normal, NoncesFor(stamp, c),
                                                       held.manifest, held.records);
    }
  }

  lemma SameAnswer(store: Store, intent: Intent)
    ensures AnswerOf(intent, SeenIn(store, intent.collections)) == SerialAnswer(DocumentsOf(store), intent)
  {
    assert Documents(SeenIn(store, intent.collections)) == Named(DocumentsOf(store), intent.collections);
  }

  /** One collection's part of the refinement: after the attempt it holds the normal form of its output. */
  lemma OneCollectionRefines(cfg: Config, store: Store, intent: Intent, c: Text, output: Json, stamp: Stamp)
    requires ValidConfig(cfg) && StoreOK(cfg, store) && IntentOK(cfg, intent) && c in intent.collections
    requires OutputOf(store, intent, c, output)
    requires !DraftOf(cfg, intent, c, SeenAt(store, c), output, stamp).Refused?
    ensures var draft := DraftOf(cfg, intent, c, SeenAt(store, c), output, stamp);
      if draft.Drafted? then draft.write.content.document == NormalOr(cfg.definitions[c], output)
          && (intent.Create? ==> c !in store.held)
      else c in store.held && (!intent.Create? ==> store.held[c].document == NormalOr(cfg.definitions[c], output))
  {
    if DraftOf(cfg, intent, c, SeenAt(store, c), output, stamp).Drafted? {
      DraftLandsOK(cfg, store, intent, c, output, stamp);
    } else if intent.Update? {
      UntouchedMeansEqual(cfg, store, c, output, FilesFor(intent, c), intent.batch, stamp);
    }
  }

  function AfterPlan(store: Store, plan: Plan): Store
  {
    if plan.Proceed? then ApplyChange(store, plan.change) else store
  }

  /** What an accepted plan leaves in a named collection, read off its drafts. */
  lemma DraftedOrKept(cfg: Config, store: Store, intent: Intent, stamp: Stamp, c: Text)
    requires IntentOK(cfg, intent) && c in intent.collections
    requires !PlanOf(cfg, intent, SeenIn(store, intent.collections), stamp).Reject?
    ensures var outputs := AnswerOf(intent, SeenIn(store, intent.collections)).value.0;
      var plan := PlanOf(cfg, intent, SeenIn(store, intent.collections), stamp);
      var draft := DraftOf(cfg, intent, c, SeenAt(store, c), outputs[c], stamp);
      && !draft.Refused?
      && (draft.Drafted? ==>
          c in AfterPlan(store, plan).held && AfterPlan(store, plan).held[c].document == draft.write.content.document)
      && (draft.Untouched? && c in store.held ==>
          c in AfterPlan(store, plan).held && AfterPlan(store, plan).held[c] == store.held[c])
  {
    hide DraftOf;
    var seen := SeenIn(store, intent.collections);
    var outputs := AnswerOf(intent, seen).value.0;
    var drafts := DraftsOf(cfg, intent, seen, outputs, stamp);
    var draft, plan := drafts[c], PlanOf(cfg, intent, seen, stamp);
    assert draft == DraftOf(cfg, intent, c, SeenAt(store, c), outputs[c], stamp);
    assert plan == Assembled(seen, drafts, plan.result);
    assert !draft.Refused?;
    if draft.Drafted? {
      var writes := map d | d in drafts && drafts[d].Drafted? :: drafts[d].write;
      assert c in writes && writes[c] == draft.write && plan.change.writes == writes;
    } else if plan.Proceed? {
      assert c !in plan.change.writes;
    }
  }

  /** After an accepted attempt a named collection holds its serial value. */
  lemma NamedCollectionRefines(cfg: Config, store: Store, intent: Intent, stamp: Stamp, c: Text)
    requires ValidConfig(cfg) && StoreOK(cfg, store) && IntentOK(cfg, intent) && c in intent.collections
    requires !PlanOf(cfg, intent, SeenIn(store, intent.collections), stamp).Reject?
    ensures var outputs := AnswerOf(intent, SeenIn(store, intent.collections)).value.0;
      var after := AfterPlan(store, PlanOf(cfg, intent, SeenIn(store, intent.collections), stamp));
      && c in after.held
      && after.held[c].document
          == (if intent.Create? && c in store.held then store.held[c].document
              else NormalOr(cfg.definitions[c], outputs[c]))
  {
    hide DraftOf, HeldOK, DraftsOf, OutputOf;
    DraftedOrKept(cfg, store, intent, stamp, c);
    AnswersAreOutputs(cfg, store, intent, c);
    OneCollectionRefines(cfg, store, intent, c, AnswerOf(intent, SeenIn(store, intent.collections)).value.0[c], stamp);
  }

  lemma OnlyNamedChange(cfg: Config, store: Store, intent: Intent, stamp: Stamp)
    requires IntentOK(cfg, intent)
    ensures var after := AfterPlan(store, PlanOf(cfg, intent, SeenIn(store, intent.collections), stamp));
      && store.held.Keys <= after.held.Keys <= store.held.Keys + intent.collections
      && forall c :: c in store.held && c !in intent.collections ==> after.held[c] == store.held[c]
  {
    hide DraftOf;
    var seen := SeenIn(store, intent.collections);
    if PlanOf(cfg, intent, seen, stamp).Proceed? {
      PlanShape(cfg, intent, seen, stamp);
    }
  }

  /**
   Whether it writes or keeps, an attempt planned from the current collections
   moves the documents exactly as its serial meaning does.
   */
  lemma PlanRefinesSerialStep(cfg: Config, store: Store, intent: Intent, stamp: Stamp)
    requires ValidConfig(cfg) && StoreOK(cfg, store) && IntentOK(cfg, intent)
    requires !PlanOf(cfg, intent, SeenIn(store, intent.collections), stamp).Reject?
    ensures var plan := PlanOf(cfg, intent, SeenIn(store, intent.collections), stamp);
      SerialStep(cfg, DocumentsOf(store), intent) == (DocumentsOf(AfterPlan(store, plan)), plan.result)
  {
    hide DraftsOf, HeldOK, SerialAnswer, AnswerOf, AfterPlan;
    var plan := PlanOf(cfg, intent, SeenIn(store, intent.collections), stamp);
    var serial, after := SerialStep(cfg, DocumentsOf(store), intent), DocumentsOf(AfterPlan(store, plan));
    SameAnswer(store, intent);
    OnlyNamedChange(cfg, store, intent, stamp);
    forall c ensures c in serial.0 <==> c in after
      ensures c in after ==> serial.0[c] == after[c]
    {
      if c in intent.collections {
        NamedCollectionRefines(cfg, store, intent, stamp, c);
      }
    }
    SameMap(serial.0, after);
  }

  lemma SameMap<K, V>(a: map<K, V>, b: map<K, V>)
    requires forall k :: k in a <==> k in b
    requires forall k :: k in b ==> a[k] == b[k]
    ensures a == b
  {
  }
}

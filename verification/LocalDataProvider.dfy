/**
 `BrowserLocalDataProvider.updateMany` (and `update`, its one-collection case) as
 it runs: the retry loop, the commit and the classification of a timed-out
 commit, over the keyed object stores that every tab shares.

 Each method body alternates with the other tabs at its await points. The proof
 keeps a ghost run of `LocalDataProtocol` beside the real tables, so that what
 the guarantees say of a run holds of the value this code returns.
 */
module LocalDataProvider {
  import opened Basics
  import opened LocalDataContent
  import opened LocalDataRoundTrip
  import opened LocalDataWriter
  import opened CommitPlan
  import opened CommitPlanLaws
  import opened LocalDataProtocol
  import opened CommitLog
  import opened LocalDataInvariant
  import opened LocalDataGuarantees
  import LocalDataSafety
  import opened LocalDataRecovery
  import opened LocalDataInitialisation
  import opened IndexedDbStorage

  /** The run so far, its world, and the tables that hold the world's store. */
  class Workspace {
    const cfg: Config
    const storage: IndexedDbLocalDataStorage
    ghost const start: Store
    ghost var steps: seq<Step>

    ghost constructor (cfg: Config, storage: IndexedDbLocalDataStorage, start: Store)
      requires ValidConfig(cfg) && StoreOK(cfg, start)
      requires storage.definitions == cfg.definitions && storage.codec == cfg.codec
          && Represents(storage.Contents(), start)
      ensures Valid() && this.cfg == cfg && this.storage == storage && this.start == start && steps == []
    {
      this.cfg, this.storage, this.start, steps := cfg, storage, start, [];
    }

    ghost predicate Valid()
      reads this, storage
    {
      && RunFrom(cfg, start, steps)
      && storage.definitions == cfg.definitions && storage.codec == cfg.codec
      && Represents(storage.Contents(), Reached(cfg, start, steps).store)
    }

    ghost function World(): World
      requires RunFrom(cfg, start, steps)
      reads this
    {
      Reached(cfg, start, steps)
    }

    /** The run goes on by one step. */
    ghost method Take(step: Step)
      requires RunFrom(cfg, start, steps) && Enabled(cfg, World(), step)
      modifies this
      ensures RunFrom(cfg, start, steps) && steps == old(steps) + [step] && World() == Do(cfg, old(World()), step)
      ensures forall p, begun :: !step.BeginUpgrade? && OwnRewrites(old(World()), p, begun) ==>
        OwnRewrites(World(), p, begun)
    {
      hide Enabled, Do, ValidConfig, StoreOK, OwnRewrites;
      forall p, begun | !step.BeginUpgrade? && OwnRewrites(World(), p, begun)
          ensures OwnRewrites(Do(cfg, World(), step), p, begun) {
        OwnRewritesStay(cfg, World(), step, p, begun);
      }
      LeadsOn(cfg, Initial(start), steps, World(), step, Do(cfg, World(), step));
      steps := steps + [step];
    }
  }

  /** Every rewrite of this tab's initialisation is among these. */
  ghost predicate OwnRewrites(w: World, p: ProviderId, begun: set<OperationId>)
  {
    && begun <= w.operations.Keys
    && forall op :: op in w.operations && w.operations[op].intent.Upgrade? && w.operations[op].provider == p ==>
      op in begun
  }

  lemma OwnRewritesStay(cfg: Config, w: World, step: Step, p: ProviderId, begun: set<OperationId>)
    requires Enabled(cfg, w, step) && !step.BeginUpgrade? && OwnRewrites(w, p, begun)
    ensures OwnRewrites(Do(cfg, w, step), p, begun)
  {
    hide Enabled, Do;
    var next := Do(cfg, w, step);
    forall op | op in begun ensures op in next.operations {
      StepKeepsIntents(cfg, w, step, op);
    }
    forall op | op in next.operations && next.operations[op].intent.Upgrade? && next.operations[op].provider == p
        ensures op in begun {
      if op in w.operations {
        StepKeepsIntents(cfg, w, step, op);
      } else {
        StepBeginsUpgrade(cfg, w, step, op);
      }
    }
  }

  /** The call has begun no rewrite. */
  ghost predicate Unrewritten(w: World, call: OperationId)
  {
    forall op :: op in w.operations ==> !UpgradeOf(w.operations[op].intent, call)
  }

  /** Rewrites come after the verifying read. */
  lemma NotYetRewritten(cfg: Config, start: Store, steps: seq<Step>, call: OperationId)
    requires RunFrom(cfg, start, steps) && call in Reached(cfg, start, steps).operations
    requires Reached(cfg, start, steps).operations[call].phase.Verifying?
    ensures Unrewritten(Reached(cfg, start, steps), call)
  {
    hide RunFrom, Reached, WorldOK;
    CallsOK(cfg, start, steps);
  }

  lemma VerifyBeginsNoRewrite(cfg: Config, w: World, call: OperationId)
    requires Unrewritten(w, call) && Enabled(cfg, w, Verify(call))
    ensures Unrewritten(Do(cfg, w, Verify(call)), call)
  {
  }

  /** Operation `op` of the call rewrote the collection, or lost it to another tab. */
  ghost predicate RewrittenBy(w: World, call: OperationId, c: Text, op: OperationId)
  {
    Upgrades(w, op, c) && CallOf(w, op) == call && RewriteDone(w, op)
  }

  /**
   The call rejects because of this operation: it failed, its verifying read
   failed, or it lost a rewrite to another tab and could not read the collection.
   */
  ghost predicate FailedIn(w: World, call: OperationId, code: Code, op: OperationId)
  {
    && op in w.operations && CallOf(w, op) == call && w.operations[op].phase.Finished?
    && var outcome := w.operations[op].phase.outcome;
    || ((outcome.Failed? || outcome.Unverified?) && outcome.code == code)
    || (outcome == Failed(Conflict) && code in {TimedOut, ReadFailed, UnusableCodec})
  }

  /** These operations rewrite, for this call, only collections listed so far, and have finished. */
  ghost predicate RewritesListed(w: World, call: OperationId, begun: set<OperationId>, listed: seq<Text>)
  {
    forall op :: op in begun && op in w.operations && UpgradeOf(w.operations[op].intent, call) ==>
      w.operations[op].phase.Finished? && exists c :: c in listed && w.operations[op].intent.collections == {c}
  }

  /** Every operation of the call has finished. */
  ghost predicate CallEnded(w: World, call: OperationId)
  {
    call in w.operations && forall op :: op in w.operations && CallOf(w, op) == call ==>
      w.operations[op].phase.Finished?
  }

  /** A call whose creating operation and listed rewrites have finished has ended: there are no others. */
  lemma AllEnded(cfg: Config, start: Store, steps: seq<Step>, p: ProviderId, call: OperationId, begun: set<OperationId>,
                 listed: seq<Text>)
    requires RunFrom(cfg, start, steps) && OwnRewrites(Reached(cfg, start, steps), p, begun)
    requires var w := Reached(cfg, start, steps);
      && call in w.operations && w.operations[call].provider == p && w.operations[call].phase.Finished?
      && !w.operations[call].intent.Upgrade?
    requires RewritesListed(Reached(cfg, start, steps), call, begun, listed)
    ensures CallEnded(Reached(cfg, start, steps), call)
  {
    hide RunFrom, Reached, WorldOK;
    CallsOK(cfg, start, steps);
    var w := Reached(cfg, start, steps);
    forall op | op in w.operations && CallOf(w, op) == call ensures w.operations[op].phase.Finished? {
      if w.operations[op].intent.Upgrade? {
        assert UpgradeOK(cfg, w, op);
      }
    }
  }

  /** A call that rejected before its verifying read succeeded has begun no rewrite. */
  lemma NothingElseBegun(cfg: Config, start: Store, steps: seq<Step>, call: OperationId)
    requires RunFrom(cfg, start, steps)
    requires var w := Reached(cfg, start, steps);
      && call in w.operations && w.operations[call].phase.Finished? && !w.operations[call].phase.outcome.Ready?
      && !w.operations[call].intent.Upgrade?
    ensures CallEnded(Reached(cfg, start, steps), call)
  {
    hide RunFrom, Reached, WorldOK;
    CallsOK(cfg, start, steps);
    var w := Reached(cfg, start, steps);
    assert forall op :: op in w.operations && w.operations[op].intent.Upgrade? ==> UpgradeOK(cfg, w, op);
  }

  /** An identifier no operation has yet. */
  lemma FreshOperation(operations: map<OperationId, Operation>) returns (op: OperationId)
    ensures op !in operations
  {
    op := Above(operations.Keys);
  }

  lemma Above(used: set<OperationId>) returns (bound: OperationId)
    ensures forall op :: op in used ==> op < bound
  {
    var rest := used;
    bound := 0;
    while rest != {}
      invariant forall op :: op in used && op !in rest ==> op < bound
    {
      var op :| op in rest;
      rest := rest - {op};
      bound := if op < bound then bound else op + 1;
    }
  }

  /** What has been rewritten stays so. */
  lemma StaysRewritten(cfg: Config, start: Store, before: seq<Step>, now: seq<Step>, call: OperationId, c: Text,
                       op: OperationId)
    requires RunFrom(cfg, start, before) && RunFrom(cfg, start, now) && before <= now
    requires RewrittenBy(Reached(cfg, start, before), call, c, op)
    ensures RewrittenBy(Reached(cfg, start, now), call, c, op)
  {
    hide RunFrom, Reached;
    LongerRunKeepsIntents(cfg, start, before, now, op);
  }

  /** The rewrites of the call all belong to this tab, so none of them is of a collection not yet listed. */
  lemma NotBegunYet(cfg: Config, start: Store, steps: seq<Step>, p: ProviderId, call: OperationId,
                    begun: set<OperationId>, listed: seq<Text>, c: Text)
    requires RunFrom(cfg, start, steps) && OwnRewrites(Reached(cfg, start, steps), p, begun)
    requires call in Reached(cfg, start, steps).operations && Reached(cfg, start, steps).operations[call].provider == p
    requires RewritesListed(Reached(cfg, start, steps), call, begun, listed) && c !in listed
    ensures !UpgradeBegun(Reached(cfg, start, steps), call, c) && begun <= Reached(cfg, start, steps).operations.Keys
  {
    hide RunFrom, Reached, WorldOK;
    CallsOK(cfg, start, steps);
    var w := Reached(cfg, start, steps);
    forall op | op in w.operations && UpgradeOf(w.operations[op].intent, call)
        ensures c !in w.operations[op].intent.collections {
      assert UpgradeOK(cfg, w, op);
    }
  }

  lemma ListedOneMore(cfg: Config, start: Store, before: seq<Step>, now: seq<Step>, call: OperationId,
                      begun: set<OperationId>, listed: seq<Text>, c: Text, op: OperationId)
    requires RunFrom(cfg, start, before) && RunFrom(cfg, start, now) && before <= now
    requires begun <= Reached(cfg, start, before).operations.Keys
    requires RewritesListed(Reached(cfg, start, before), call, begun, listed)
    requires op in Reached(cfg, start, now).operations
        && Reached(cfg, start, now).operations[op].intent == Upgrade({c}, call)
        && Reached(cfg, start, now).operations[op].phase.Finished?
    ensures RewritesListed(Reached(cfg, start, now), call, begun + {op}, listed + [c])
  {
    hide RunFrom, Reached;
    var w, next := Reached(cfg, start, before), Reached(cfg, start, now);
    forall u | u in begun + {op} && u in next.operations && UpgradeOf(next.operations[u].intent, call)
      ensures next.operations[u].phase.Finished?
      ensures exists d :: d in listed + [c] && next.operations[u].intent.collections == {d}
    {
      if u == op {
        assert c in listed + [c];
      } else {
        LongerRunKeepsIntents(cfg, start, before, now, u);
        var d :| d in listed && w.operations[u].intent.collections == {d};
        assert d in listed + [c];
      }
    }
  }

  lemma AllListed(collections: seq<Text>, intent: Intent)
    requires Listed(collections, intent)
    ensures forall c :: c in intent.collections <==> c in collections
  {
  }

  lemma LostRewriteReadsBack(cfg: Config, start: Store, steps: seq<Step>, op: OperationId, c: Text)
    requires RunFrom(cfg, start, steps)
    requires Upgrades(Reached(cfg, start, steps), op, c) && RewriteDone(Reached(cfg, start, steps), op)
    ensures c in Reached(cfg, start, steps).store.held
  {
    hide RunFrom, Reached, WorldOK, UpgradesOK;
    CallsOK(cfg, start, steps);
    RewriteLeavesCurrent(cfg, start, Reached(cfg, start, steps), op, c);
  }

  lemma ReachedStoreOK(cfg: Config, start: Store, steps: seq<Step>)
    requires RunFrom(cfg, start, steps)
    ensures StoreOK(cfg, Reached(cfg, start, steps).store) && ValidConfig(cfg)
  {
    hide StoreOK, LogOK, Reached, OperationOK;
    ReachedOK(cfg, start, steps);
    var w := Reached(cfg, start, steps);
    HistoryKeepsStoreOK(cfg, start, w.log, |w.log|);
  }

  /** Collections as a caller lists them. */
  predicate Listed(collections: seq<Text>, intent: Intent)
  {
    (forall i, j :: 0 <= i < j < |collections| ==> collections[i] != collections[j])
        && intent.collections == set c | c in collections
  }

  // ---------- Planning an attempt ----------

  /** One collection of an update: unchanged, refused, or prepared by the writer and given its next manifest. */
  method PrepareUpdate(cfg: Config, c: Text, seen: Seen, output: Json, files: map<Text, SelectedFile>, batch: bool,
                       stamp: Stamp)
    returns (draft: Draft)
    requires c in cfg.definitions
    ensures draft == DraftUpdate(cfg, c, seen, output, files, batch, stamp)
  {
    hide Prepared, FileKeys, Dropped, ManifestReadable, ConsistentReferences, FilesReferenced;
    var definition := cfg.definitions[c];
    if seen.Absent? {
      return Refused;
    }
    var normal := definition.normalize(output);
    if normal.None? {
      return Refused;
    }
    var same := SameDocument(definition, seen, normal.value, files);
    if !batch && same {
      return Untouched;
    }
    var previous, next := definition.references(seen.document), definition.references(normal.value);
    if !ConsistentReferences(previous) || !ConsistentReferences(next) || !FilesReferenced(files, next) {
      return Refused;
    }
    var removed := FileKeys(cfg, c, Dropped(previous, next));
    if same {
      return if removed == {} then Untouched else Refused;
    }
    var content := PrepareLocalDataContent(definition, cfg.codec, normal.value, NoncesFor(stamp, c));
    if content.Err? {
      return Refused;
    }
    if files == map[] && ContentMatches(definition, cfg.codec, content.value, seen.manifest) {
      return if removed == {} || !batch then Untouched else Refused;
    }
    var manifest := ProposedManifest(definition, cfg.codec, content.value, Application, seen.manifest.legacyDigest,
                                     seen.manifest.revision, stamp.updatedAt);
    if !ManifestReadable(definition, manifest) {
      return Refused;
    }
    return Drafted(Write(content.value, manifest, removed, Bodies(files)));
  }

  /** One collection of an initialisation: left alone when present, its seed prepared when absent. */
  method PrepareCreation(cfg: Config, c: Text, seen: Seen, seed: Option<Seed>, approved: bool, stamp: Stamp)
    returns (draft: Draft)
    requires c in cfg.definitions
    ensures draft == DraftCreate(cfg, c, seen, seed, approved, stamp)
  {
    hide Prepared, ManifestReadable;
    var definition := cfg.definitions[c];
    if seen.Present? {
      return Untouched;
    }
    if seed.None? || (approved && seed.value.source == LegacyLocalStorage) {
      return Refused;
    }
    var content := PrepareLocalDataContent(definition, cfg.codec, seed.value.input, NoncesFor(stamp, c));
    if content.Err? {
      return Refused;
    }
    var manifest :=
        ProposedManifest(definition, cfg.codec, content.value, seed.value.source, seed.value.legacyDigest, 0,
                                     stamp.updatedAt);
    if !ManifestReadable(definition, manifest) {
      return Refused;
    }
    return Drafted(Write(content.value, manifest, {}, map[]));
  }

  /** One collection found in an older schema version, prepared again from its document. */
  method PrepareUpgrade(cfg: Config, c: Text, seen: Seen, stamp: Stamp) returns (draft: Draft)
    requires c in cfg.definitions
    ensures draft == DraftUpgrade(cfg, c, seen, stamp)
  {
    hide Prepared, ManifestReadable;
    var definition := cfg.definitions[c];
    if seen.Absent? {
      return Refused;
    }
    var content := PrepareLocalDataContent(definition, cfg.codec, seen.document, NoncesFor(stamp, c));
    if content.Err? {
      return Refused;
    }
    var manifest := ProposedManifest(definition, cfg.codec, content.value, Application, seen.manifest.legacyDigest,
                                     seen.manifest.revision, stamp.updatedAt);
    if !ManifestReadable(definition, manifest) {
      return Refused;
    }
    return Drafted(Write(content.value, manifest, {}, map[]));
  }

  /** The drafts of the collections listed so far, none of them refused. */
  ghost predicate DraftedSoFar(cfg: Config, intent: Intent, seen: map<Text, Seen>, outputs: map<Text, Json>,
                               stamp: Stamp, listed: seq<Text>, writes: map<Text, Write>)
    requires IntentOK(cfg, intent) && seen.Keys == intent.collections && intent.collections <= outputs.Keys
    requires forall c :: c in listed ==> c in intent.collections
  {
    && (forall c :: c in listed ==> !DraftOf(cfg, intent, c, seen[c], outputs[c], stamp).Refused?)
    && (forall c :: c in writes <==> c in listed && DraftOf(cfg, intent, c, seen[c], outputs[c], stamp).Drafted?)
    && (forall c :: c in writes ==> writes[c] == DraftOf(cfg, intent, c, seen[c], outputs[c], stamp).write)
  }

  lemma OneMoreDraft(cfg: Config, intent: Intent, seen: map<Text, Seen>, outputs: map<Text, Json>, stamp: Stamp,
                     listed: seq<Text>,
                     writes: map<Text, Write>, c: Text)
    requires IntentOK(cfg, intent) && seen.Keys == intent.collections && intent.collections <= outputs.Keys
    requires (forall d :: d in listed ==> d in intent.collections) && c in intent.collections
    requires DraftedSoFar(cfg, intent, seen, outputs, stamp, listed, writes)
    requires !DraftOf(cfg, intent, c, seen[c], outputs[c], stamp).Refused?
    ensures var draft := DraftOf(cfg, intent, c, seen[c], outputs[c], stamp);
      DraftedSoFar(cfg, intent, seen, outputs, stamp, listed + [c], if draft.Drafted? then writes[c := draft.write]
                   else writes)
  {
    hide DraftOf, IntentOK;
  }

  /** The drafts of all collections, or nothing when one is refused. */
  method DraftAll(cfg: Config, collections: seq<Text>, intent: Intent, seen: map<Text, Seen>, outputs: map<Text, Json>,
                  stamp: Stamp)
    returns (writes: Option<map<Text, Write>>)
    requires IntentOK(cfg, intent) && seen.Keys == intent.collections && intent.collections <= outputs.Keys
    requires forall c :: c in collections ==> c in intent.collections
    ensures writes.None? ==>
      exists c :: c in intent.collections && DraftOf(cfg, intent, c, seen[c], outputs[c], stamp).Refused?
    ensures writes.Some? ==> DraftedSoFar(cfg, intent, seen, outputs, stamp, collections, writes.value)
  {
    hide DraftOf, IntentOK;
    var drafted: map<Text, Write> := map[];
    for i := 0 to |collections|
      invariant DraftedSoFar(cfg, intent, seen, outputs, stamp, collections[..i], drafted)
    {
      var c := collections[i];
      var draft := PrepareCollection(cfg, intent, c, seen[c], outputs[c], stamp);
      if draft.Refused? {
        return None;
      }
      OneMoreDraft(cfg, intent, seen, outputs, stamp, collections[..i], drafted, c);
      assert collections[..i + 1] == collections[..i] + [c];
      if draft.Drafted? {
        drafted := drafted[c := draft.write];
      }
    }
    assert collections[..|collections|] == collections;
    return Some(drafted);
  }

  lemma AllDrafted(cfg: Config, collections: seq<Text>, intent: Intent, seen: map<Text, Seen>,
                   outputs: map<Text, Json>, stamp: Stamp, writes: map<Text, Write>)
    requires IntentOK(cfg, intent) && seen.Keys == intent.collections && intent.collections <= outputs.Keys
    requires forall c :: c in collections <==> c in intent.collections
    requires DraftedSoFar(cfg, intent, seen, outputs, stamp, collections, writes)
    ensures var drafts := DraftsOf(cfg, intent, seen, outputs, stamp);
      (forall c :: c in drafts ==> !drafts[c].Refused?) && writes == map c | c in drafts && drafts[c].Drafted? ::
          drafts[c].write
  {
    hide DraftOf, IntentOK;
  }

  /** The updater's answer, collection by collection, as one plan. */
  method PlanAttempt(cfg: Config, collections: seq<Text>, intent: Intent, seen: map<Text, Seen>, stamp: Stamp)
    returns (plan: Plan)
    requires IntentOK(cfg, intent) && seen.Keys == intent.collections && Listed(collections, intent)
    ensures plan == PlanOf(cfg, intent, seen, stamp)
  {
    hide DraftOf, AnswerOf, DraftedSoFar;
    var answer := AnswerOf(intent, seen);
    if answer.None? {
      return Reject;
    }
    AnswerCovers(cfg, intent, seen);
    assert forall c :: c in collections <==> c in intent.collections;
    var writes := DraftAll(cfg, collections, intent, seen, answer.value.0, stamp);
    if writes.None? {
      ghost var c :| c in intent.collections && DraftOf(cfg, intent, c, seen[c], answer.value.0[c], stamp).Refused?;
      assert DraftsOf(cfg, intent, seen, answer.value.0, stamp)[c].Refused?;
      return Reject;
    }
    AllDrafted(cfg, collections, intent, seen, answer.value.0, stamp, writes.value);
    return if writes.value == map[] then Keep(answer.value.1)
        else Proceed(Change(ExpectedOf(seen), writes.value), answer.value.1);
  }

  method PrepareCollection(cfg: Config, intent: Intent, c: Text, seen: Seen, output: Json, stamp: Stamp)
    returns (draft: Draft)
    requires IntentOK(cfg, intent) && c in intent.collections
    ensures draft == DraftOf(cfg, intent, c, seen, output, stamp)
  {
    hide DraftUpdate, DraftCreate, DraftUpgrade;
    match intent {
      case Update(_, _, _, batch) => draft := PrepareUpdate(cfg, c, seen, output, FilesFor(intent, c), batch, stamp);
      case Create(_, _, _, approved) =>
          draft := PrepareCreation(cfg, c, seen, SeedFor(intent, c), c in approved, stamp);
      case Upgrade(_, _) => draft := PrepareUpgrade(cfg, c, seen, stamp);
    }
  }

  lemma AnswerCovers(cfg: Config, intent: Intent, seen: map<Text, Seen>)
    requires IntentOK(cfg, intent) && AnswerOf(intent, seen).Some?
    ensures intent.collections <= AnswerOf(intent, seen).value.0.Keys
  {
  }

  // ---------- Handing a change to storage ----------

  method ListKeys(keys: set<Text>) returns (r: seq<Text>)
    ensures Removed(r) == keys
  {
    r := [];
    var remaining := keys;
    while remaining != {}
      invariant remaining + Removed(r) == keys
    {
      var k :| k in remaining;
      remaining := remaining - {k};
      r := r + [k];
      assert Removed(r) == Removed(r[..|r| - 1]) + {k};
    }
  }

  method ListBodies(bodies: map<Text, Text>) returns (r: seq<(Text, Text)>)
    ensures BodiesIn(r) == bodies
  {
    r := [];
    var remaining := bodies.Keys;
    while remaining != {}
      invariant remaining <= bodies.Keys
      invariant BodiesIn(r) == bodies - remaining
    {
      var k :| k in remaining;
      remaining := remaining - {k};
      r := r + [(k, bodies[k])];
      assert r[..|r| - 1] + [(k, bodies[k])] == r;
    }
  }

  ghost predicate CollectionsFrom(changes: seq<CollectionChange>, writes: map<Text, Write>, listed: seq<Text>)
  {
    && (forall i :: 0 <= i < |changes| ==>
        EncodesCollection(changes[i], writes) && changes[i].manifest.collection in listed)
    && (forall i, j :: 0 <= i < j < |changes| ==> changes[i].manifest.collection != changes[j].manifest.collection)
  }

  ghost predicate FilesFrom(changes: seq<FileChange>, writes: map<Text, Write>, listed: seq<Text>)
  {
    && (forall i :: 0 <= i < |changes| ==> EncodesFile(changes[i], writes) && changes[i].collection in listed)
    && (forall i, j :: 0 <= i < j < |changes| ==> changes[i].collection != changes[j].collection)
  }

  ghost predicate ExpectedFrom(expected: seq<(Text, Option<Manifest>)>, manifests: map<Text, Option<Manifest>>,
                               listed: seq<Text>)
  {
    |expected| == |listed|
    && forall i :: 0 <= i < |listed| ==>
      expected[i].0 == listed[i] && listed[i] in manifests && manifests[listed[i]] == expected[i].1
  }

  /** The part of a transaction built for the collections listed so far. */
  ghost predicate EncodedSoFar(commit: StorageCommit, change: Change, listed: seq<Text>)
  {
    && ExpectedFrom(commit.expected, change.expected, listed)
    && CollectionsFrom(commit.collections, change.writes, listed)
    && FilesFrom(commit.files, change.writes, listed)
    && (forall i :: 0 <= i < |listed| && listed[i] in change.writes ==> Covered(commit, change, listed[i]))
  }

  ghost predicate Covered(commit: StorageCommit, change: Change, c: Text)
    requires c in change.writes
  {
    && (exists k :: 0 <= k < |commit.collections| && commit.collections[k].manifest.collection == c)
    && ((exists k :: 0 <= k < |commit.files| && commit.files[k].collection == c)
        || (change.writes[c].removed == {} && change.writes[c].added == map[]))
  }

  ghost predicate Encodable(change: Change, collections: seq<Text>)
  {
    && (forall i, j :: 0 <= i < j < |collections| ==> collections[i] != collections[j])
    && change.expected.Keys == (set c | c in collections) && change.writes.Keys <= change.expected.Keys
    && forall c :: c in change.writes ==>
      change.writes[c].manifest.collection == c && OwnRows(c, change.writes[c].content.records)
  }

  method EncodeCommit(collections: seq<Text>, change: Change) returns (commit: StorageCommit)
    requires Encodable(change, collections)
    ensures Encodes(commit, change)
  {
    hide OwnRows, Removed, BodiesIn;
    commit := StorageCommit([], [], []);
    for n := 0 to |collections|
      invariant EncodedSoFar(commit, change, collections[..n])
    {
      var c := collections[n];
      var expected := commit.expected + [(c, change.expected[c])];
      ghost var before := commit;
      assert collections[..n + 1] == collections[..n] + [c];
      assert c !in collections[..n];
      if c in change.writes {
        var write := change.writes[c];
        var remove := ListKeys(write.removed);
        var writes := ListBodies(write.added);
        NothingListed(remove, writes);
        commit := StorageCommit(expected,
                                commit.collections + [CollectionChange(write.manifest, write.content.records)],
                                FilesAfter(commit.files, c, remove, writes));
        OneMoreWritten(before, change, collections[..n], c, remove, writes);
      } else {
        commit := commit.(expected := expected);
        OneMoreKept(before, change, collections[..n], c);
      }
    }
    assert collections[..|collections|] == collections;
    AllEncoded(commit, change, collections);
  }

  lemma NothingListed(remove: seq<Text>, writes: seq<(Text, Text)>)
    ensures remove == [] ==> Removed(remove) == {}
    ensures writes == [] ==> BodiesIn(writes) == map[]
  {
  }

  lemma OneMoreKept(commit: StorageCommit, change: Change, listed: seq<Text>, c: Text)
    requires EncodedSoFar(commit, change, listed) && c in change.expected && c !in change.writes
    ensures EncodedSoFar(commit.(expected := commit.expected + [(c, change.expected[c])]), change, listed + [c])
  {
  }

  function FilesAfter(files: seq<FileChange>, c: Text, remove: seq<Text>, writes: seq<(Text, Text)>): seq<FileChange>
  {
    if remove == [] && writes == [] then files else files + [FileChange(c, remove, writes)]
  }

  lemma OneMoreWritten(commit: StorageCommit, change: Change, listed: seq<Text>, c: Text, remove: seq<Text>,
                       writes: seq<(Text, Text)>)
    requires EncodedSoFar(commit, change, listed) && c !in listed && c in change.expected && c in change.writes
    requires change.writes[c].manifest.collection == c && OwnRows(c, change.writes[c].content.records)
    requires Removed(remove) == change.writes[c].removed && BodiesIn(writes) == change.writes[c].added
    requires (remove == [] ==> Removed(remove) == {}) && (writes == [] ==> BodiesIn(writes) == map[])
    ensures var write := change.writes[c];
      EncodedSoFar(StorageCommit(commit.expected + [(c, change.expected[c])],
                                 commit.collections + [CollectionChange(write.manifest, write.content.records)],
                                 FilesAfter(commit.files, c, remove, writes)),
                   change, listed + [c])
  {
    hide OwnRows, Removed, BodiesIn, EncodesFile, Covered;
    var write := change.writes[c];
    var after := StorageCommit(commit.expected + [(c, change.expected[c])],
                               commit.collections + [CollectionChange(write.manifest, write.content.records)],
                               FilesAfter(commit.files, c, remove, writes));
    assert EncodesCollection(CollectionChange(write.manifest, write.content.records), change.writes);
    OneMoreFile(commit.files, change.writes, listed, c, remove, writes);
    WrittenIsCovered(commit, after, change, c);
    forall i | 0 <= i < |listed + [c]| && (listed + [c])[i] in change.writes
        ensures Covered(after, change, (listed + [c])[i]) {
      if i < |listed| {
        StaysCovered(commit, after, change, listed[i]);
      }
    }
  }

  lemma OneMoreFile(files: seq<FileChange>, changes: map<Text, Write>, listed: seq<Text>, c: Text, remove: seq<Text>,
                    writes: seq<(Text, Text)>)
    requires FilesFrom(files, changes, listed) && c !in listed && c in changes
    requires Removed(remove) == changes[c].removed && BodiesIn(writes) == changes[c].added
    ensures FilesFrom(FilesAfter(files, c, remove, writes), changes, listed + [c])
  {
    hide Removed, BodiesIn;
    assert EncodesFile(FileChange(c, remove, writes), changes);
  }

  lemma StaysCovered(commit: StorageCommit, after: StorageCommit, change: Change, c: Text)
    requires c in change.writes && Covered(commit, change, c)
    requires commit.collections <= after.collections && commit.files <= after.files
    ensures Covered(after, change, c)
  {
  }

  lemma WrittenIsCovered(commit: StorageCommit, after: StorageCommit, change: Change, c: Text)
    requires c in change.writes && |after.collections| > 0
        && after.collections[|after.collections| - 1].manifest.collection == c
    requires (|after.files| > 0 && after.files[|after.files| - 1].collection == c)
        || (change.writes[c].removed == {} && change.writes[c].added == map[])
    ensures Covered(after, change, c)
  {
  }

  lemma AllEncoded(commit: StorageCommit, change: Change, collections: seq<Text>)
    requires EncodedSoFar(commit, change, collections) && Encodable(change, collections)
    ensures Encodes(commit, change)
  {
  }

  /** A planned change is a transaction storage can be given. */
  lemma PlannedIsEncodable(cfg: Config, collections: seq<Text>, intent: Intent, seen: map<Text, Seen>, stamp: Stamp)
    requires ValidConfig(cfg) && IntentOK(cfg, intent) && seen.Keys == intent.collections && Listed(collections, intent)
    requires PlanOf(cfg, intent, seen, stamp).Proceed?
    ensures Encodable(PlanOf(cfg, intent, seen, stamp).change, collections)
  {
    hide PlanOf, OwnRows, WriteFollows, ValidConfig, IntentOK;
    PlanShape(cfg, intent, seen, stamp);
    var change := PlanOf(cfg, intent, seen, stamp).change;
    forall c | c in change.writes
      ensures change.writes[c].manifest.collection == c && OwnRows(c, change.writes[c].content.records)
    {
      WriteIsNamed(cfg, c, seen[c], change.writes[c], stamp);
      PlannedRowsAreOwn(cfg, intent, seen, stamp, c);
    }
  }

  lemma WriteIsNamed(cfg: Config, c: Text, seen: Seen, write: Write, stamp: Stamp)
    requires ValidConfig(cfg) && WriteFollows(cfg, c, seen, write, stamp)
    ensures write.manifest.collection == c
  {
  }

  lemma BoundedHasBudget(definition: Definition, codec: Codec, rows: seq<StoredRecord>)
    requires Bounded(definition, codec, rows)
    ensures CollectionBudget(definition, codec).Some?
  {
  }

  lemma HeldIsReadable(cfg: Config, store: Store, c: Text)
    requires StoreOK(cfg, store) && c in store.held
    ensures c in cfg.definitions && ManifestReadable(cfg.definitions[c], store.held[c].manifest)
        && store.held[c].manifest.codec == cfg.codec.id
  {
  }

  datatype Attempted = Stop(code: Code) | Nothing(result: Json) | Send(change: Change, result: Json)

  /** Where planning leaves its operation. */
  function PhaseOf(intent: Intent, next: Attempted, attempt: nat, at: nat, seen: map<Text, Seen>, stamp: Stamp): Phase
  {
    match next
    case Stop(code) => Finished(Failed(code))
    case Nothing(result) => if intent.Create? then Verifying(false) else Finished(Unchanged(result, at))
    case Send(change, result) => InFlight(Flight(attempt, at, seen, stamp, change, result), None)
  }

  /** With nothing found missing beforehand, a snapshot is the store itself. */
  lemma WholeSnapshot(store: Store, collections: set<Text>)
    ensures SeenExcept(store, collections, {}) == SeenIn(store, collections)
  {
  }

  lemma PlannedContentsFollow(cfg: Config, intent: Intent, seen: map<Text, Seen>, stamp: Stamp)
    requires IntentOK(cfg, intent) && seen.Keys == intent.collections && PlanOf(cfg, intent, seen, stamp).Proceed?
    ensures ContentsFollow(cfg, PlanOf(cfg, intent, seen, stamp).change)
  {
    hide PlanOf;
    PlanShape(cfg, intent, seen, stamp);
    var change := PlanOf(cfg, intent, seen, stamp).change;
    forall c | c in change.writes
      ensures c in cfg.definitions
          && ContentMatches(cfg.definitions[c], cfg.codec, change.writes[c].content, change.writes[c].manifest)
    {
      assert WriteFollows(cfg, c, seen[c], change.writes[c], stamp);
    }
  }

  datatype Verdict = Confirmation | Refusal(code: Code)

  /**
   Where a commit leaves its operation: an update retries a conflict while
   attempts remain, initialisation goes on to look again.
   */
  function PhaseAfter(intent: Intent, flight: Flight, verdict: Verdict): Phase
  {
    match verdict
    case Confirmation => if intent.Create? then Verifying(true) else Finished(Saved(flight.result))
    case Refusal(Conflict) =>
      if intent.Create? then Verifying(false)
      else if intent.Update? && flight.attempt < MAX_UPDATE_ATTEMPTS then Idle(flight.attempt + 1)
      else Finished(Failed(Conflict))
    case Refusal(code) => Finished(Failed(code))
  }

  /** With nothing missing, initialisation goes straight to its verifying read. */
  function SurveyedPhase(missing: set<Text>): Phase
  {
    if missing == {} then Verifying(false) else Surveyed(missing)
  }

  /** A transaction under way, whether or not its caller still waits for it. */
  function Deciding(flight: Flight, late: bool, landed: Option<Landing>): Phase
  {
    if late then Recovering(flight, landed) else InFlight(flight, landed)
  }

  class BrowserLocalDataProvider {
    const id: ProviderId
    const workspace: Workspace
    var commitState: CommitState
    ghost var begun: set<OperationId>   // the rewrites this tab's initialisation has begun

    ghost predicate Valid()
      reads this, workspace, workspace.storage
    {
      && workspace.Valid() && ValidConfig(workspace.cfg)
      && commitState == StateOf(workspace.World(), id)
      && OwnRewrites(workspace.World(), id, begun)
    }

    constructor (id: ProviderId, workspace: Workspace)
      requires workspace.Valid() && StateOf(workspace.World(), id) == Confirmed
      ensures Valid() && this.id == id && this.workspace == workspace && commitState == Confirmed
    {
      this.id, this.workspace, commitState, begun := id, workspace, Confirmed, workspace.World().operations.Keys;
    }

    /** The call `op` does not exist yet. */
    ghost predicate Unstarted(op: OperationId)
      reads this, workspace, workspace.storage
    {
      Valid() && op !in workspace.World().operations
    }

    /** The call `op` of this provider has reached this phase. */
    ghost predicate Phased(op: OperationId, intent: Intent, phase: Phase)
      reads this, workspace, workspace.storage
    {
      && Valid()
      && var w := workspace.World();
      op in w.operations && w.operations[op].provider == id && w.operations[op].intent == intent
          && w.operations[op].phase == phase
    }

    /**
     An await point: other operations, of this tab and of others, may take any
     number of steps. Only `initialize` itself begins the rewrites of its tab.
     */
    method Await(ghost op: OperationId)
      requires Valid() && op in workspace.World().operations
      modifies this`commitState, workspace, workspace.storage
      ensures Valid() && old(workspace.steps) <= workspace.steps
      ensures op in workspace.World().operations
          && workspace.World().operations[op] == old(workspace.World().operations[op])
    {
    }

    /** `Await`, for a call in a known phase. */
    method AwaitAt(ghost op: OperationId, ghost intent: Intent, ghost phase: Phase)
      requires Phased(op, intent, phase)
      modifies this`commitState, workspace, workspace.storage
      ensures old(workspace.steps) <= workspace.steps && Phased(op, intent, phase)
    {
      hide RunFrom, Reached, Represents, ValidConfig, OwnRewrites;
      Await(op);
    }

    /** One snapshot of several collections, in one read-only transaction, which may itself time out or abort. */
    method ReadSnapshots(collections: seq<Text>) returns (seen: Result<map<Text, Seen>, Code>)
      requires Valid() && forall c :: c in collections ==> c in workspace.cfg.definitions
      ensures seen.Ok? ==> AllHeld(workspace.World().store, set c | c in collections)
      ensures seen.Ok? ==> seen.value == SeenIn(workspace.World().store, set c | c in collections)
      ensures seen == Err(Missing) ==> !AllHeld(workspace.World().store, set c | c in collections)
      ensures seen.Err? ==> seen.error == Missing || ReadCode(workspace.cfg, (set c | c in collections), seen.error)
    {
      hide Represents, StoreOK, RunFrom, Reached, ManifestReadable, Bounded, Lists, BudgetsDeclared, Decoded,
          CollectionBudget;
      ghost var store := workspace.World().store;
      ReachedStoreOK(workspace.cfg, workspace.start, workspace.steps);
      var failure := ReadFailure();
      if failure.Some? {
        return Err(failure.value);
      }
      var found: map<Text, Seen> := map[];
      for i := 0 to |collections|
        invariant found.Keys == set c | c in collections[..i]
        invariant forall c :: c in found ==> c in store.held && found[c] == SeenAt(store, c)
      {
        var c := collections[i];
        assert collections[..i + 1] == collections[..i] + [c];
        var captured := ReadSnapshot(c);
        if captured.Err? {
          assert c in set x | x in collections;
          return Err(captured.error);
        }
        found := found[c := captured.value];
      }
      assert collections[..|collections|] == collections;
      return Ok(found);
    }

    /** How the browser ends a read-only transaction. */
    method ReadFailure() returns (failure: Option<Code>)
      ensures failure.Some? ==> failure.value in {TimedOut, ReadFailed}
    {
      if * {
        return Some(TimedOut);
      }
      if * {
        return Some(ReadFailed);
      }
      return None;
    }

    method ReadSnapshot(c: Text) returns (seen: Result<Seen, Code>)
      requires Valid() && c in workspace.cfg.definitions
      ensures seen.Ok? ==> c in workspace.World().store.held && seen.value == SeenAt(workspace.World().store, c)
      ensures seen == Err(Missing) <==> c !in workspace.World().store.held
      ensures seen.Err? ==> seen.error == Missing || (seen.error == UnusableCodec && BudgetUnusable(workspace.cfg, c))
    {
      hide StoreOK, RunFrom, Reached, ManifestReadable, Bounded, Lists, BudgetsDeclared, Decoded, CollectionBudget,
          LawfulDefinition, LawfulCodec, InjectiveDigest, OwnRewrites;
      ghost var store := workspace.World().store;
      var storage, definition := workspace.storage, workspace.cfg.definitions[c];
      ReachedStoreOK(workspace.cfg, workspace.start, workspace.steps);
      assert RepresentsAt(storage.Contents(), store, c);
      hide Represents;
      var captured, keys, rows := storage.Capture(c);
      if captured.Err? && captured.error.NoManifest? {
        return Err(Missing);
      }
      HeldIsReadable(workspace.cfg, store, c);
      if captured.Ok? {
        BoundedHasBudget(definition, storage.codec, rows);
      }
      if CollectionBudget(definition, storage.codec).Some?
         && (captured.Ok? || captured.error.BadRecords? || captured.error.BadCodec?)
      {
        CaptureReadsBack(workspace.cfg, storage.Contents(), store, c, keys, rows);
      }
      if captured.Err? {
        return Err(UnusableCodec);
      }
      var document :=
          DecodeLocalDataSnapshot(definition, storage.codec, captured.value.manifest, captured.value.records);
      return Ok(Present(captured.value.manifest, document.value));
    }

    // ---------- One commit ----------

    /** The browser runs the transaction against whatever the stores hold by now, or aborts it. */
    method RunTransaction(commit: StorageCommit, ghost store: Store, ghost change: Change) returns (landing: Landing)
      requires Represents(workspace.storage.Contents(), store) && Encodes(commit, change)
          && change.writes.Keys <= change.expected.Keys
      modifies workspace.storage
      ensures Represents(workspace.storage.Contents(), if landing.Applied? then ApplyChange(store, change) else store)
      ensures landing.Applied? ==> CommitAllowed(store, change)
      ensures landing == NotApplied(Conflict) ==> !Matches(store, change.expected)
      ensures landing == NotApplied(Integrity) ==> ReplacesStray(store, change)
      ensures landing == NotApplied(CommitUnknown) ==> commitState != Confirmed
      ensures landing.Applied? || landing.code in {Conflict, Integrity, CommitUnknown, WriteFailed}
    {
      hide Represents, Encodes, ApplyChange, CommitAllowed, Matches, ReplacesStray, Committed, FailureOf;
      if * {
        return NotApplied(WriteFailed);
      }
      var stillWritable := true;
      if commitState != Confirmed {
        stillWritable := *;
      }
      ghost var tables := workspace.storage.Contents();
      CommitDecides(tables, store, commit, change);
      AllowedWhen(store, change);
      OnlyTheGateDiffers(tables, commit, stillWritable);
      var failure := workspace.storage.Commit(commit, true, stillWritable);
      if failure.None? {
        CommitRefines(tables, store, commit, change);
      }
      landing := LandingOf(failure);
    }

    /** The decision, and where it leaves the call. */
    method Decide(ghost op: OperationId, ghost intent: Intent, ghost flight: Flight, ghost late: bool,
                  commit: StorageCommit) returns (landing: Landing)
      requires Encodes(commit, flight.change) && flight.change.writes.Keys <= flight.change.expected.Keys
      requires Phased(op, intent, Deciding(flight, late, None))
      modifies workspace, workspace.storage
      ensures old(workspace.steps) <= workspace.steps && Phased(op, intent, Deciding(flight, late, Some(landing)))
    {
      hide RunFrom, Reached, Represents, Encodes, ValidConfig, ApplyChange, CommitAllowed, Matches,
          ReplacesStray, OwnRewrites;
      landing := RunTransaction(commit, workspace.World().store, flight.change);
      workspace.Take(Land(op, landing));
    }

    /** Every written collection holds the proposed manifest, as far as it can be read. */
    method ProposedInPlace(collections: seq<Text>, change: Change) returns (r: bool, ghost readable: bool)
      requires Valid() && Encodable(change, collections) && ContentsFollow(workspace.cfg, change)
      ensures r <==> readable && ProposalInPlace(workspace.World().store, change)
    {
      hide RunFrom, Reached, Represents, ValidConfig, OwnRows, StoreOK, OwnRewrites;
      ghost var store := workspace.World().store;
      var written := KeepListed(collections, change.writes.Keys);
      var seen := ReadSnapshots(written);
      if seen.Err? {
        return false, seen.error == Missing;
      }
      r, readable := true, true;
      for i := 0 to |written|
        invariant r <==> forall c :: c in written[..i] ==> ManifestAt(store, c) == Some(change.writes[c].manifest)
      {
        var c := written[i];
        assert c in set x | x in written;
        assert written[..i + 1] == written[..i] + [c];
        if seen.value[c].manifest != change.writes[c].manifest
           || !ContentMatches(workspace.cfg.definitions[c], workspace.cfg.codec, change.writes[c].content,
                              seen.value[c].manifest)
        {
          r := false;
        }
      }
      assert written[..|written|] == written;
      assert forall c :: c in change.writes <==> c in written;
    }

    /** Every written collection still holds the manifest the change was based on. */
    method ExpectedInPlace(change: Change) returns (r: bool)
      requires Valid() && change.writes.Keys <= change.expected.Keys
      ensures r <==> ExpectationInPlace(workspace.World().store, change)
    {
      hide RunFrom, Reached, ValidConfig, StoreOK, HoldsCollection, OwnRewrites;
      ghost var store := workspace.World().store;
      forall c: Text ensures ManifestIn(workspace.storage.Contents(), c) == ManifestAt(store, c) {
        ManifestsAgree(workspace.storage.Contents(), store, c);
      }
      r := forall c :: c in change.writes ==> ManifestIn(workspace.storage.Contents(), c) == change.expected[c];
    }

    /** The first recovery read: is the proposal in place? */
    method LooksCommitted(ghost op: OperationId, ghost intent: Intent, ghost flight: Flight, ghost landing: Landing,
                          collections: seq<Text>, change: Change)
      returns (committed: bool)
      requires flight.change == change && Phased(op, intent, Recovering(flight, Some(landing)))
      requires Encodable(change, collections) && ContentsFollow(workspace.cfg, change)
      modifies this`commitState, workspace, workspace.storage
      ensures old(workspace.steps) <= workspace.steps
      ensures Phased(op, intent, if committed then PhaseAfter(intent, flight, Confirmation)
                     else Rereading(flight, Some(landing)))
    {
      hide RunFrom, Reached, Represents, ValidConfig, OwnRows, StoreOK, ProposalInPlace, Encodable,
          ContentsFollow, OwnRewrites;
      Await(op);
      ghost var readable;
      committed, readable := ProposedInPlace(collections, change);
      workspace.Take(Reconcile(op, readable));
      if committed {
        commitState := Confirmed;
      }
    }

    /** The second: is everything as it was before? */
    method LooksUntouched(ghost op: OperationId, ghost intent: Intent, ghost flight: Flight, ghost landing: Landing,
                          change: Change)
      returns (untouched: bool)
      requires flight.change == change && Phased(op, intent, Rereading(flight, Some(landing)))
      requires change.writes.Keys <= change.expected.Keys
      modifies this`commitState, workspace, workspace.storage
      ensures old(workspace.steps) <= workspace.steps
      ensures Phased(op, intent, Finished(Failed(if untouched then TimedOut else CommitUnknown)))
    {
      hide RunFrom, Reached, Represents, ValidConfig, StoreOK, ExpectationInPlace, OwnRewrites;
      Await(op);
      var failure := ReadFailure();
      untouched := false;
      if failure.None? {
        untouched := ExpectedInPlace(change);
      }
      workspace.Take(Step.Settle(op, failure.None?));
      commitState := if untouched then Confirmed else Unknown;
    }

    /** `#classifyTimedOutCommit`: two later reads tell committed, not committed or unknown. */
    method ClassifyTimedOutCommit(ghost op: OperationId, ghost intent: Intent, ghost flight: Flight,
                                  ghost landing: Landing, collections: seq<Text>, change: Change)
      returns (verdict: Verdict)
      requires flight.change == change && Phased(op, intent, Recovering(flight, Some(landing)))
      requires Encodable(change, collections) && ContentsFollow(workspace.cfg, change)
      modifies this`commitState, workspace, workspace.storage
      ensures old(workspace.steps) <= workspace.steps
      ensures Phased(op, intent, PhaseAfter(intent, flight, verdict))
    {
      hide Phased, OwnRows, ContentsFollow;
      var committed := LooksCommitted(op, intent, flight, landing, collections, change);
      if committed {
        return Confirmation;
      }
      var untouched := LooksUntouched(op, intent, flight, landing, change);
      verdict := Refusal(if untouched then TimedOut else CommitUnknown);
    }

    /** The deadline passes; the transaction itself goes on. */
    method StopWaiting(ghost op: OperationId, ghost intent: Intent, ghost flight: Flight, ghost landed: Option<Landing>)
      requires Phased(op, intent, InFlight(flight, landed))
      modifies this`commitState, workspace, workspace.storage
      ensures old(workspace.steps) <= workspace.steps && Phased(op, intent, Recovering(flight, landed))
    {
      hide RunFrom, Reached, Represents, ValidConfig, OwnRewrites;
      workspace.Take(TimeOut(op));
      commitState := Reconciling;
      Await(op);
    }

    /** The transaction answered in time. */
    method Conclude(ghost op: OperationId, ghost intent: Intent, ghost flight: Flight, landing: Landing)
      returns (verdict: Verdict)
      requires Phased(op, intent, InFlight(flight, Some(landing)))
      modifies this`commitState, workspace
      ensures old(workspace.steps) <= workspace.steps
      ensures Phased(op, intent, PhaseAfter(intent, flight, verdict))
    {
      hide RunFrom, Reached, Represents, ValidConfig, OwnRewrites;
      workspace.Take(Acknowledge(op));
      match landing {
        case Applied => return Confirmation;
        case NotApplied(code) =>
          if code == CommitUnknown {
            commitState := Unknown;
          }
          return Refusal(code);
      }
    }

    /** `#commit` with the storage transaction it starts. */
    method Commit(ghost op: OperationId, ghost intent: Intent, ghost flight: Flight, collections: seq<Text>,
                  change: Change) returns (verdict: Verdict)
      requires flight.change == change && Phased(op, intent, InFlight(flight, None))
      requires Encodable(change, collections) && ContentsFollow(workspace.cfg, change)
      modifies this`commitState, workspace, workspace.storage
      ensures old(workspace.steps) <= workspace.steps
      ensures Phased(op, intent, PhaseAfter(intent, flight, verdict))
    {
      hide Phased, OwnRows, Encodes, ContentsFollow, PhaseAfter;
      AwaitAt(op, intent, InFlight(flight, None));
      if * {
        verdict := SendNothing(op, intent, flight);
        return;
      }
      var commit := EncodeCommit(collections, change);
      var late := *;
      if late {
        StopWaiting(op, intent, flight, None);
      }
      var landing := Decide(op, intent, flight, late, commit);
      if !late {
        AwaitAt(op, intent, InFlight(flight, Some(landing)));
        if * {
          StopWaiting(op, intent, flight, Some(landing));
          late := true;
        }
      }
      if late {
        verdict := ClassifyTimedOutCommit(op, intent, flight, landing, collections, change);
      } else {
        verdict := Conclude(op, intent, flight, landing);
      }
    }

    /** The database could not be opened, or the write gate had closed again. */
    method SendNothing(ghost op: OperationId, ghost intent: Intent, ghost flight: Flight) returns (verdict: Verdict)
      requires Phased(op, intent, InFlight(flight, None))
      modifies this`commitState, workspace
      ensures Valid() && old(workspace.steps) <= workspace.steps
      ensures verdict == Refusal(CommitUnknown) && Phased(op, intent, PhaseAfter(intent, flight, verdict))
    {
      hide RunFrom, Reached, Represents, ValidConfig, OwnRewrites;
      workspace.Take(NeverSent(op));
      commitState := Unknown;
      return Refusal(CommitUnknown);
    }

    // ---------- The retry loop ----------

    /** The call arrives. */
    method Arrive(ghost op: OperationId, intent: Intent)
      requires Unstarted(op) && IntentOK(workspace.cfg, intent) && !intent.Upgrade?
      modifies workspace
      ensures old(workspace.steps) <= workspace.steps && Phased(op, intent, Idle(1))
    {
      hide RunFrom, Reached, Represents, ValidConfig, IntentOK, OwnRewrites;
      workspace.Take(Begin(op, id, intent));
    }

    /** An attempt starts unless its caller has aborted it or an earlier commit is unsettled. */
    method RequirePending(ghost op: OperationId, intent: Intent, ghost attempt: nat) returns (stop: Option<Code>)
      requires Phased(op, intent, Idle(attempt)) && intent.Update?
      modifies this`commitState, workspace, workspace.storage
      ensures old(workspace.steps) <= workspace.steps
      ensures Phased(op, intent, if stop.None? then Idle(attempt) else Finished(Failed(stop.value)))
    {
      hide RunFrom, Reached, Represents, ValidConfig, OwnRewrites;
      Await(op);
      var aborted := *;
      if !intent.batch && aborted {
        workspace.Take(Abandon(op));
        return Some(Abandoned);
      }
      if commitState != Confirmed {
        workspace.Take(Refuse(op));
        return Some(CommitUnknown);
      }
      return None;
    }

    /** The snapshot an attempt works from, read in one transaction. */
    method TakeSnapshot(ghost op: OperationId, collections: seq<Text>, intent: Intent, ghost attempt: nat)
      returns (seen: Result<map<Text, Seen>, Code>, ghost at: nat)
      requires intent.Update? && IntentOK(workspace.cfg, intent) && Listed(collections, intent)
          && Phased(op, intent, Idle(attempt))
      modifies workspace
      ensures old(workspace.steps) <= workspace.steps
      ensures Phased(op, intent, if seen.Ok? then Captured(attempt, at, seen.value) else Finished(Failed(seen.error)))
      ensures seen.Ok? ==> seen.value.Keys == intent.collections
    {
      hide RunFrom, Reached, Represents, ValidConfig, StoreOK, OwnRewrites;
      assert forall c :: c in collections ==> c in intent.collections;
      seen := ReadSnapshots(collections);
      at := |workspace.World().log|;
      if seen.Err? && seen.error != Missing {
        workspace.Take(ReadFails(op, seen.error));
        return;
      }
      workspace.Take(Capture(op));
      WholeSnapshot(old(workspace.World().store), intent.collections);
    }

    /** Updater or seeds, prepared collections and the write gate: what the attempt will do about its snapshot. */
    method ProposeFrom(ghost op: OperationId, collections: seq<Text>, intent: Intent, ghost attempt: nat,
                       ghost at: nat, seen: map<Text, Seen>, stamp: Stamp)
      returns (next: Attempted)
      requires IntentOK(workspace.cfg, intent) && Listed(collections, intent) && seen.Keys == intent.collections
      requires Phased(op, intent, Captured(attempt, at, seen))
      modifies this`commitState, workspace, workspace.storage
      ensures old(workspace.steps) <= workspace.steps
      ensures Phased(op, intent, PhaseOf(intent, next, attempt, at, seen, stamp))
      ensures next.Send? ==> Encodable(next.change, collections) && ContentsFollow(workspace.cfg, next.change)
      ensures next.Nothing? ==> PlanOf(workspace.cfg, intent, seen, stamp).Keep?
    {
      hide PlanOf, IntentOK, Encodable, ContentsFollow, Listed, Phased;
      var aborted := AbortsNow(op, intent, attempt, at, seen);
      if aborted {
        return Stop(Abandoned);
      }
      next := ProposePlan(op, collections, intent, attempt, at, seen, stamp);
    }

    /** A single update looks at its caller's signal once more before it is planned. */
    method AbortsNow(ghost op: OperationId, intent: Intent, ghost attempt: nat, ghost at: nat,
                     ghost seen: map<Text, Seen>)
      returns (aborted: bool)
      requires Phased(op, intent, Captured(attempt, at, seen))
      modifies this`commitState, workspace, workspace.storage
      ensures old(workspace.steps) <= workspace.steps
      ensures Phased(op, intent, if aborted then Finished(Failed(Abandoned)) else Captured(attempt, at, seen))
    {
      hide RunFrom, Reached, Represents, ValidConfig, StoreOK, OwnRewrites;
      Await(op);
      aborted := *;
      aborted := aborted && intent.Update? && !intent.batch;
      if aborted {
        workspace.Take(Abandon(op));
      }
    }

    method ProposePlan(ghost op: OperationId, collections: seq<Text>, intent: Intent, ghost attempt: nat,
                       ghost at: nat, seen: map<Text, Seen>, stamp: Stamp)
      returns (next: Attempted)
      requires IntentOK(workspace.cfg, intent) && Listed(collections, intent) && seen.Keys == intent.collections
      requires Phased(op, intent, Captured(attempt, at, seen))
      modifies workspace
      ensures old(workspace.steps) <= workspace.steps
      ensures Phased(op, intent, PhaseOf(intent, next, attempt, at, seen, stamp))
      ensures next.Send? ==> Encodable(next.change, collections) && ContentsFollow(workspace.cfg, next.change)
      ensures next.Nothing? ==> PlanOf(workspace.cfg, intent, seen, stamp).Keep?
    {
      hide RunFrom, Reached, Represents, ValidConfig, PlanOf, StoreOK, OwnRows, Encodable, ContentsFollow, Listed,
          OwnRewrites;
      var plan := PlanAttempt(workspace.cfg, collections, intent, seen, stamp);
      match plan {
        case Reject =>
          workspace.Take(Propose(op, stamp));
          return Stop(Invalid);
        case Keep(result) =>
          workspace.Take(Propose(op, stamp));
          return Nothing(result);
        case Proceed(change, result) =>
          if commitState != Confirmed {
            workspace.Take(Refuse(op));
            return Stop(CommitUnknown);
          }
          PlannedIsEncodable(workspace.cfg, collections, intent, seen, stamp);
          PlannedContentsFollow(workspace.cfg, intent, seen, stamp);
          workspace.Take(Propose(op, stamp));
          return Send(change, result);
      }
    }

    /** One attempt: an answer, or a conflict that leaves another attempt. */
    method Attempt(ghost op: OperationId, collections: seq<Text>, intent: Intent, attempt: nat, stamp: Stamp)
      returns (r: Option<Result<Json, Code>>, ghost outcome: Outcome)
      requires Phased(op, intent, Idle(attempt)) && 1 <= attempt <= MAX_UPDATE_ATTEMPTS
      requires intent.Update? && IntentOK(workspace.cfg, intent) && Listed(collections, intent)
      modifies this`commitState, workspace, workspace.storage
      ensures old(workspace.steps) <= workspace.steps
      ensures r.Some? ==> Phased(op, intent, Finished(outcome)) && r.value == AnswerTo(outcome)
      ensures r.None? ==> Phased(op, intent, Idle(attempt + 1)) && attempt < MAX_UPDATE_ATTEMPTS
    {
      hide Phased, PlanOf, IntentOK, Encodable, ContentsFollow, Listed;
      var stop := RequirePending(op, intent, attempt);
      if stop.Some? {
        return Some(Err(stop.value)), Failed(stop.value);
      }
      var seen, at := TakeSnapshot(op, collections, intent, attempt);
      if seen.Err? {
        return Some(Err(seen.error)), Failed(seen.error);
      }
      var next := ProposeFrom(op, collections, intent, attempt, at, seen.value, stamp);
      match next {
        case Stop(code) => return Some(Err(code)), Failed(code);
        case Nothing(result) => return Some(Ok(result)), Unchanged(result, at);
        case Send(change, result) =>
          var verdict :=
              Commit(op, intent, Flight(attempt, at, seen.value, stamp, change, result), collections, change);
          if verdict.Confirmation? {
            return Some(Ok(result)), Saved(result);
          }
          if verdict.code == Conflict && attempt < MAX_UPDATE_ATTEMPTS {
            return None, Failed(Conflict);
          }
          return Some(Err(verdict.code)), Failed(verdict.code);
      }
    }

    /**
     One `updateMany` call. Its answer is the outcome of an operation in a run of
     the protocol, so every guarantee about outcomes is a guarantee about `r`.
     */
    method UpdateMany(ghost op: OperationId, collections: seq<Text>, intent: Intent, stamps: nat -> Stamp)
      returns (r: Result<Json, Code>, ghost outcome: Outcome)
      requires Unstarted(op)
      requires intent.Update? && IntentOK(workspace.cfg, intent) && Listed(collections, intent)
      modifies this`commitState, workspace, workspace.storage
      ensures old(workspace.steps) <= workspace.steps
      ensures Phased(op, intent, Finished(outcome))
      ensures r == AnswerTo(outcome)
    {
      hide RunFrom, Reached, Represents, ValidConfig, IntentOK, StoreOK, Listed, OwnRewrites;
      Arrive(op, intent);
      var attempt := 1;
      while true
        invariant 1 <= attempt <= MAX_UPDATE_ATTEMPTS
        invariant old(workspace.steps) <= workspace.steps && Phased(op, intent, Idle(attempt))
        decreases MAX_UPDATE_ATTEMPTS - attempt
      {
        var answer, end := Attempt(op, collections, intent, attempt, stamps(attempt));
        if answer.Some? {
          return answer.value, end;
        }
        attempt := attempt + 1;
      }
    }

    // ---------- Initialisation ----------

    /** The manifests first: what is missing now is to be created, if it may be. */
    method Survey(ghost op: OperationId, collections: seq<Text>, intent: Intent)
      returns (missing: Result<set<Text>, Code>)
      requires Phased(op, intent, Idle(1)) && intent.Create? && Listed(collections, intent)
      modifies workspace
      ensures Valid() && old(workspace.steps) <= workspace.steps
      ensures Phased(op, intent, if missing.Ok? then SurveyedPhase(missing.value) else Finished(Failed(missing.error)))
      ensures missing.Ok? ==> missing.value <= intent.collections
    {
      hide RunFrom, Reached, ValidConfig, StoreOK, HoldsCollection, OwnRewrites;
      var failure := ReadFailure();
      if failure.Some? {
        workspace.Take(ReadFails(op, failure.value));
        return Err(failure.value);
      }
      ghost var store := workspace.World().store;
      forall c: Text ensures ManifestIn(workspace.storage.Contents(), c) == ManifestAt(store, c) {
        ManifestsAgree(workspace.storage.Contents(), store, c);
      }
      var absent := set c | c in collections && ManifestIn(workspace.storage.Contents(), c).None?;
      assert absent == intent.collections - store.held.Keys;
      workspace.Take(Step.Survey(op));
      return if exists c :: c in absent && !MayCreate(intent, c) then Err(Missing) else Ok(absent);
    }

    /** The existing collections, read in one transaction; the missing ones stay absent. */
    method TakeCreationSnapshot(ghost op: OperationId, collections: seq<Text>, intent: Intent, missing: set<Text>)
      returns (seen: Result<map<Text, Seen>, Code>, ghost at: nat)
      requires intent.Create? && IntentOK(workspace.cfg, intent) && Listed(collections, intent)
      requires missing <= intent.collections && Phased(op, intent, Surveyed(missing))
      modifies workspace
      ensures old(workspace.steps) <= workspace.steps
      ensures Phased(op, intent, if seen.Ok? then Captured(1, at, seen.value) else Finished(Failed(seen.error)))
      ensures seen.Ok? ==> seen.value.Keys == intent.collections
    {
      hide RunFrom, Reached, Represents, ValidConfig, StoreOK, OwnRewrites;
      assert forall c :: c in collections <==> c in intent.collections;
      var existing := KeepListed(collections, intent.collections - missing);
      var snapshots := ReadSnapshots(existing);
      ghost var store := workspace.World().store;
      at := |workspace.World().log|;
      if snapshots.Err? && snapshots.error != Missing {
        workspace.Take(ReadFails(op, snapshots.error));
        return Err(snapshots.error), at;
      }
      workspace.Take(Capture(op));
      if snapshots.Err? {
        return Err(Missing), at;
      }
      var whole := map c | c in intent.collections :: if c in missing then Absent else snapshots.value[c];
      assert whole == SeenExcept(store, intent.collections, missing);
      return Ok(whole), at;
    }

    /** Every declared collection must read back before the call goes on. */
    method VerifyAll(ghost op: OperationId, collections: seq<Text>, intent: Intent, ghost created: bool)
      returns (seen: Result<map<Text, Seen>, Code>, ghost at: nat)
      requires Phased(op, intent, Verifying(created)) && IntentOK(workspace.cfg, intent) && Listed(collections, intent)
      modifies this`commitState, workspace, workspace.storage
      ensures old(workspace.steps) <= workspace.steps
      ensures Phased(op, intent,
                     Finished(if seen.Ok? then Ready(at, seen.value, created) else Unverified(seen.error, created)))
      ensures seen.Ok? ==> seen.value.Keys == intent.collections && Unrewritten(workspace.World(), op)
    {
      hide RunFrom, Reached, Represents, ValidConfig, StoreOK, OwnRewrites, Unrewritten;
      Await(op);
      assert forall c :: c in collections ==> c in intent.collections;
      seen := ReadSnapshots(collections);
      at := ConcludeVerification(op, intent, created, seen);
    }

    ghost method ConcludeVerification(op: OperationId, intent: Intent, created: bool,
                                      seen: Result<map<Text, Seen>, Code>)
      returns (at: nat)
      requires Phased(op, intent, Verifying(created))
      requires seen.Ok? ==>
        AllHeld(workspace.World().store, intent.collections)
            && seen.value == SeenIn(workspace.World().store, intent.collections)
      requires seen == Err(Missing) ==> !AllHeld(workspace.World().store, intent.collections)
      requires seen.Err? ==> seen.error == Missing || ReadCode(workspace.cfg, intent.collections, seen.error)
      modifies workspace
      ensures old(workspace.steps) <= workspace.steps
      ensures Phased(op, intent,
                     Finished(if seen.Ok? then Ready(at, seen.value, created) else Unverified(seen.error, created)))
      ensures seen.Ok? ==> seen.value.Keys == intent.collections && Unrewritten(workspace.World(), op)
    {
      hide RunFrom, Reached, Represents, ValidConfig, StoreOK, OwnRewrites, AllHeld, Unrewritten;
      NotYetRewritten(workspace.cfg, workspace.start, workspace.steps, op);
      at := |workspace.World().log|;
      if seen.Err? && seen.error != Missing {
        workspace.Take(ReadFails(op, seen.error));
      } else {
        VerifyBeginsNoRewrite(workspace.cfg, workspace.World(), op);
        workspace.Take(Verify(op));
      }
    }

    method BeginInitialize(ghost op: OperationId, collections: seq<Text>, intent: Intent)
      returns (missing: Result<set<Text>, Code>)
      requires Unstarted(op) && intent.Create? && IntentOK(workspace.cfg, intent) && Listed(collections, intent)
      modifies this`commitState, workspace, workspace.storage
      ensures old(workspace.steps) <= workspace.steps
      ensures missing.Ok? ==> missing.value <= intent.collections
      ensures Phased(op, intent, if missing.Ok? then SurveyedPhase(missing.value) else Finished(Failed(missing.error)))
    {
      hide RunFrom, Reached, Represents, ValidConfig, IntentOK, Listed, OwnRewrites;
      Arrive(op, intent);
      Await(op);
      missing := Survey(op, collections, intent);
    }

    /** One attempt to create what is missing; losing the race to another tab is no failure. */
    method CreateMissing(ghost op: OperationId, collections: seq<Text>, intent: Intent, missing: set<Text>,
                         stamp: Stamp)
      returns (stop: Option<Code>, ghost created: bool)
      requires intent.Create? && IntentOK(workspace.cfg, intent) && Listed(collections, intent)
      requires missing <= intent.collections && Phased(op, intent, Surveyed(missing))
      modifies this`commitState, workspace, workspace.storage
      ensures old(workspace.steps) <= workspace.steps
      ensures Phased(op, intent, if stop.None? then Verifying(created) else Finished(Failed(stop.value)))
    {
      hide RunFrom, Reached, Represents, ValidConfig, IntentOK, Encodable, ContentsFollow, Listed,
          OwnRewrites;
      Await(op);
      var seen, at := TakeCreationSnapshot(op, collections, intent, missing);
      if seen.Err? {
        return Some(seen.error), false;
      }
      var next := ProposeFrom(op, collections, intent, 1, at, seen.value, stamp);
      match next {
        case Stop(code) => return Some(code), false;
        case Nothing(_) => return None, false;
        case Send(change, result) =>
          var verdict := Commit(op, intent, Flight(1, at, seen.value, stamp, change, result), collections, change);
          stop := if verdict.Refusal? && verdict.code != Conflict then Some(verdict.code) else None;
          return stop, verdict.Confirmation?;
      }
    }

    /** Up to the verifying read. */
    method CreateAndVerify(ghost op: OperationId, collections: seq<Text>, intent: Intent, stamp: Stamp)
      returns (seen: Result<map<Text, Seen>, Code>, ghost outcome: Outcome)
      requires Unstarted(op)
      requires intent.Create? && IntentOK(workspace.cfg, intent) && Listed(collections, intent)
      modifies this`commitState, workspace, workspace.storage
      ensures old(workspace.steps) <= workspace.steps
      ensures Phased(op, intent, Finished(outcome))
      ensures seen.Ok? ==> outcome.Ready? && outcome.seen == seen.value && seen.value.Keys == intent.collections
      ensures seen.Ok? ==> Unrewritten(workspace.World(), op)
      ensures seen.Err? ==> (outcome.Failed? || outcome.Unverified?) && outcome.code == seen.error
    {
      hide Phased, Unstarted, IntentOK, Encodable, ContentsFollow, Listed;
      var missing := BeginInitialize(op, collections, intent);
      if missing.Err? {
        return Err(missing.error), Failed(missing.error);
      }
      ghost var created := false;
      if missing.value != {} {
        var stop;
        stop, created := CreateMissing(op, collections, intent, missing.value, stamp);
        if stop.Some? {
          return Err(stop.value), Failed(stop.value);
        }
      }
      ghost var at;
      seen, at := VerifyAll(op, collections, intent, created);
      outcome := if seen.Ok? then Ready(at, seen.value, created) else Unverified(seen.error, created);
    }

    // ---------- Rewrites of older schema versions ----------

    /** The rewrite starts from what the verifying read found. */
    ghost method BeginRewrite(call: OperationId, intent: Intent, at: nat, seen: map<Text, Seen>, created: bool, c: Text)
      returns (op: OperationId)
      requires Phased(call, intent, Finished(Ready(at, seen, created))) && c in seen
          && Outdated(workspace.cfg, c, seen[c])
      requires !UpgradeBegun(workspace.World(), call, c)
      modifies this`begun, workspace
      ensures old(workspace.steps) <= workspace.steps && begun == old(begun) + {op}
      ensures Phased(op, Upgrade({c}, call), Captured(1, at, map[c := seen[c]]))
    {
      hide RunFrom, Reached, Represents, ValidConfig, StoreOK, Outdated, UpgradeBegun;
      op := FreshOperation(workspace.World().operations);
      workspace.Take(BeginUpgrade(op, call, c));
      begun := begun + {op};
    }

    /** One collection found outdated: prepared again, and committed over the manifest it was read with. */
    method Rewrite(call: OperationId, ghost intent: Intent, ghost at: nat, ghost seen: map<Text, Seen>,
                   ghost created: bool, c: Text, found: Seen, stamp: Stamp)
      returns (failure: Option<Code>, ghost op: OperationId)
      requires Phased(call, intent, Finished(Ready(at, seen, created))) && c in seen && seen[c] == found
          && Outdated(workspace.cfg, c, found)
      requires !UpgradeBegun(workspace.World(), call, c)
      modifies this`commitState, this`begun, workspace, workspace.storage
      ensures old(workspace.steps) <= workspace.steps && begun == old(begun) + {op}
      ensures Valid() && op in workspace.World().operations
          && workspace.World().operations[op].intent == Upgrade({c}, call)
          && workspace.World().operations[op].phase.Finished?
      ensures failure.None? ==> RewrittenBy(workspace.World(), call, c, op)
      ensures failure.Some? ==> FailedIn(workspace.World(), call, failure.value, op)
    {
      hide RunFrom, Reached, Represents, ValidConfig, StoreOK, Encodable, ContentsFollow, PlanOf,
          OwnRewrites, UpgradeBegun;
      var rewrite, one := Upgrade({c}, call), map[c := found];
      op := BeginRewrite(call, intent, at, seen, created, c);
      var next := ProposeFrom(op, [c], rewrite, 1, at, one, stamp);
      match next {
        case Stop(code) => return Some(code), op;
        case Nothing(_) =>
          LocalDataSafety.UpgradeNeverKeeps(workspace.cfg, rewrite, one, stamp);
          assert false;
        case Send(change, result) =>
          var verdict := Commit(op, rewrite, Flight(1, at, one, stamp, change, result), [c], change);
          if verdict.Confirmation? {
            return None, op;
          }
          if verdict.code != Conflict {
            return Some(verdict.code), op;
          }
          failure := ReadAgain(op, call, c);
      }
    }

    /** A lost rewrite is no failure as long as the collection reads back. */
    method ReadAgain(ghost op: OperationId, ghost call: OperationId, c: Text) returns (failure: Option<Code>)
      requires Phased(op, Upgrade({c}, call), Finished(Failed(Conflict))) && c in workspace.cfg.definitions
      modifies this`commitState, workspace, workspace.storage
      ensures old(workspace.steps) <= workspace.steps && Phased(op, Upgrade({c}, call), Finished(Failed(Conflict)))
      ensures failure.None? ==> RewrittenBy(workspace.World(), call, c, op)
      ensures failure.Some? ==> FailedIn(workspace.World(), call, failure.value, op)
    {
      hide RunFrom, Reached, Represents, ValidConfig, StoreOK, OwnRewrites;
      Await(op);
      LostRewriteReadsBack(workspace.cfg, workspace.start, workspace.steps, op, c);
      var again := ReadSnapshots([c]);
      assert (set x | x in [c]) == {c};
      failure := if again.Ok? then None else Some(again.error);
    }

    /** What the loop over the collections has done so far. */
    ghost predicate RewrittenSoFar(call: OperationId, intent: Intent, at: nat, seen: map<Text, Seen>, created: bool,
                                   listed: seq<Text>)
      reads this, workspace, workspace.storage
    {
      && Phased(call, intent, Finished(Ready(at, seen, created)))
      && RewritesListed(workspace.World(), call, begun, listed)
      && forall c :: c in listed && c in seen && Outdated(workspace.cfg, c, seen[c]) ==>
           exists op :: RewrittenBy(workspace.World(), call, c, op)
    }

    /** Every collection the verifying read found in an older schema version is written again, one after another. */
    method RewriteOutdated(call: OperationId, collections: seq<Text>, intent: Intent, ghost at: nat,
                           seen: map<Text, Seen>, ghost created: bool, stamps: Text -> Stamp)
      returns (failure: Option<Code>, ghost last: OperationId)
      requires Listed(collections, intent) && seen.Keys == intent.collections && intent.Create?
      requires Phased(call, intent, Finished(Ready(at, seen, created))) && Unrewritten(workspace.World(), call)
      modifies this`commitState, this`begun, workspace, workspace.storage
      ensures Valid() && old(workspace.steps) <= workspace.steps
      ensures failure.None? ==> RewrittenSoFar(call, intent, at, seen, created, collections)
      ensures CallEnded(workspace.World(), call)
      ensures failure.Some? ==> FailedIn(workspace.World(), call, failure.value, last)
    {
      hide RunFrom, Reached, Represents, ValidConfig, StoreOK, OwnRewrites, Outdated, RewrittenBy,
          FailedIn;
      assert RewrittenSoFar(call, intent, at, seen, created, collections[..0]);
      for i := 0 to |collections|
        invariant old(workspace.steps) <= workspace.steps
            && RewrittenSoFar(call, intent, at, seen, created, collections[..i])
      {
        var c := collections[i];
        assert collections[..i + 1] == collections[..i] + [c];
        assert c in set x | x in collections;
        if Outdated(workspace.cfg, c, seen[c]) {
          failure, last := RewriteNext(call, intent, at, seen, created, collections[..i], c, seen[c], stamps(c));
          if failure.Some? {
            AllEnded(workspace.cfg, workspace.start, workspace.steps, id, call, begun, collections[..i] + [c]);
            return;
          }
        }
      }
      assert collections[..|collections|] == collections;
      AllEnded(workspace.cfg, workspace.start, workspace.steps, id, call, begun, collections);
      failure, last := None, call;
    }

    /** One more collection, beside those already done. */
    method RewriteNext(call: OperationId, ghost intent: Intent, ghost at: nat, ghost seen: map<Text, Seen>,
                       ghost created: bool, ghost listed: seq<Text>, c: Text, found: Seen, stamp: Stamp)
      returns (failure: Option<Code>, ghost op: OperationId)
      requires RewrittenSoFar(call, intent, at, seen, created, listed) && c !in listed
      requires c in seen && seen[c] == found && Outdated(workspace.cfg, c, found)
      modifies this`commitState, this`begun, workspace, workspace.storage
      ensures Valid() && old(workspace.steps) <= workspace.steps
      ensures failure.None? ==> RewrittenSoFar(call, intent, at, seen, created, listed + [c])
      ensures Phased(call, intent, Finished(Ready(at, seen, created)))
      ensures RewritesListed(workspace.World(), call, begun, listed + [c])
      ensures failure.Some? ==> FailedIn(workspace.World(), call, failure.value, op)
    {
      hide RunFrom, Reached, Represents, ValidConfig, StoreOK, Outdated, RewrittenBy, FailedIn,
          RewritesListed, OwnRewrites;
      ghost var before, known := workspace.steps, begun;
      NotBegunYet(workspace.cfg, workspace.start, before, id, call, begun, listed, c);
      failure, op := Rewrite(call, intent, at, seen, created, c, found, stamp);
      LongerRunKeepsIntents(workspace.cfg, workspace.start, before, workspace.steps, call);
      ListedOneMore(workspace.cfg, workspace.start, before, workspace.steps, call, known, listed, c, op);
      forall d | d in listed && d in seen && Outdated(workspace.cfg, d, seen[d])
        ensures exists u :: RewrittenBy(workspace.World(), call, d, u)
      {
        var u :| RewrittenBy(Reached(workspace.cfg, workspace.start, before), call, d, u);
        StaysRewritten(workspace.cfg, workspace.start, before, workspace.steps, call, d, u);
      }
    }

    /**
     One `initialize` call. When it resolves, its operations in the run make it
     `Resolved`, so that every declared collection is there and current. When it
     rejects, `last` is the operation whose failure it reports; what the call wrote
     is told by all its operations together, which have then finished.
     */
    method Initialize(op: OperationId, collections: seq<Text>, intent: Intent, stamp: Stamp, stamps: Text -> Stamp)
      returns (failure: Option<Code>, ghost last: OperationId)
      requires Unstarted(op)
      requires intent.Create? && IntentOK(workspace.cfg, intent) && Listed(collections, intent)
      modifies this`commitState, this`begun, workspace, workspace.storage
      ensures Valid() && old(workspace.steps) <= workspace.steps
      ensures op in workspace.World().operations && workspace.World().operations[op].intent == intent
      ensures failure.None? ==> Resolved(workspace.cfg, workspace.World(), op)
      ensures failure.Some? ==> FailedIn(workspace.World(), op, failure.value, last)
      ensures CallEnded(workspace.World(), op)
    {
      hide RunFrom, Reached, Represents, ValidConfig, IntentOK, StoreOK, OwnRewrites, Listed, Unrewritten, CallEnded;
      var seen, outcome := CreateAndVerify(op, collections, intent, stamp);
      if seen.Err? {
        NothingElseBegun(workspace.cfg, workspace.start, workspace.steps, op);
        return Some(seen.error), op;
      }
      ghost var before := workspace.steps;
      failure, last := RewriteOutdated(op, collections, intent, outcome.at, seen.value, outcome.created, stamps);
      LongerRunKeepsIntents(workspace.cfg, workspace.start, before, workspace.steps, op);
      if failure.None? {
        AllListed(collections, intent);
      }
    }
  }

  method KeepListed(collections: seq<Text>, keep: set<Text>) returns (r: seq<Text>)
    requires keep <= set c | c in collections
    ensures (set c | c in r) == keep
  {
    r := [];
    for i := 0 to |collections|
      invariant forall c :: c in r <==> c in collections[..i] && c in keep
    {
      assert collections[..i + 1] == collections[..i] + [collections[i]];
      if collections[i] in keep {
        r := r + [collections[i]];
      }
    }
    assert collections[..|collections|] == collections;
    forall c | c in keep ensures c in r {
      assert c in set x | x in collections;
    }
  }

  function AnswerTo(outcome: Outcome): Result<Json, Code>
  {
    match outcome
    case Unchanged(result, _) => Ok(result)
    case Saved(result) => Ok(result)
    case Ready(_, _, _) => Ok(Json.Null)
    case Failed(code) => Err(code)
    case Unverified(code, _) => Err(code)
  }

  ghost predicate ContentsFollow(cfg: Config, change: Change)
  {
    forall c :: c in change.writes ==>
      c in cfg.definitions
          && ContentMatches(cfg.definitions[c], cfg.codec, change.writes[c].content, change.writes[c].manifest)
  }

  lemma ManifestsAgree(tables: Tables, store: Store, c: Text)
    requires Represents(tables, store)
    ensures ManifestIn(tables, c) == ManifestAt(store, c)
  {
    assert RepresentsAt(tables, store, c);
  }

  function LandingOf(failure: Option<CommitFailure>): Landing
  {
    match failure
    case None => Applied
    case Some(RevisionChanged) => NotApplied(Conflict)
    case Some(Leftovers) => NotApplied(Integrity)
    case Some(NotWritable) => NotApplied(CommitUnknown)
  }

  lemma OnlyTheGateDiffers(tables: Tables, commit: StorageCommit, stillWritable: bool)
    ensures FailureOf(tables, commit, true, stillWritable) ==
      if FailureOf(tables, commit, true, true).None? && !stillWritable then Some(NotWritable)
      else FailureOf(tables, commit, true, true)
  {
  }

  lemma AllowedWhen(store: Store, change: Change)
    ensures CommitAllowed(store, change) <==> Matches(store, change.expected) && !ReplacesStray(store, change)
  {
  }
}

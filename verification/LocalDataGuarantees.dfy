/**
 What the protocol promises its callers, over every run of any number of
 operations in any number of tabs.
 */
module LocalDataGuarantees {
  import opened Basics
  import opened LocalDataContent
  import opened LocalDataRoundTrip
  import opened Permutations
  import opened CommitPlan
  import opened CommitPlanLaws
  import opened LocalDataProtocol
  import opened CommitLog
  import opened LocalDataInvariant
  import opened LocalDataSafety

  /** A run from a store that reads back, with no operation under way. */
  ghost predicate RunFrom(cfg: Config, start: Store, steps: seq<Step>)
  {
    ValidConfig(cfg) && StoreOK(cfg, start) && Runs(cfg, Initial(start), steps)
  }

  ghost function Reached(cfg: Config, start: Store, steps: seq<Step>): World
    requires RunFrom(cfg, start, steps)
  {
    After(cfg, Initial(start), steps)
  }

  lemma ReachedOK(cfg: Config, start: Store, steps: seq<Step>)
    requires RunFrom(cfg, start, steps)
    ensures WorldOK(cfg, start, Reached(cfg, start, steps))
  {
    hide WorldOK;
    InitialOK(cfg, start);
    RunKeepsWorldOK(cfg, start, Initial(start), steps);
  }

  // ---------- Serialisability ----------

  ghost predicate IntentsOK(cfg: Config, log: seq<Entry>)
  {
    forall i :: 0 <= i < |log| ==> IntentOK(cfg, log[i].intent)
  }

  /** The first `n` intents of the history, run one after another on bare documents. */
  ghost function SerialDocuments(cfg: Config, documents: map<Text, Json>, log: seq<Entry>, n: nat): map<Text, Json>
    requires n <= |log| && IntentsOK(cfg, log)
  {
    if n == 0 then documents else SerialStep(cfg, SerialDocuments(cfg, documents, log, n - 1), log[n - 1].intent).0
  }

  lemma {:induction false} HistoryIsSerial(cfg: Config, start: Store, log: seq<Entry>, n: nat)
    requires ValidConfig(cfg) && StoreOK(cfg, start) && LogOK(cfg, start, log) && IntentsOK(cfg, log) && n <= |log|
    ensures DocumentsOf(StoreAfter(start, log, n)) == SerialDocuments(cfg, DocumentsOf(start), log, n)
    ensures n < |log| ==>
      SerialStep(cfg, SerialDocuments(cfg, DocumentsOf(start), log, n), log[n].intent).1 == log[n].result
  {
    hide StoreOK, ValidConfig, LogOK, PlanOf, ApplyChange, SerialStep, IntentOK, CommitAllowed, DocumentsOf, SeenIn;
    if n > 0 {
      HistoryIsSerial(cfg, start, log, n - 1);
      EntryIsSerial(cfg, start, log, n - 1);
    }
    if n < |log| {
      EntryIsSerial(cfg, start, log, n);
    }
  }

  lemma EntryIsSerial(cfg: Config, start: Store, log: seq<Entry>, i: nat)
    requires ValidConfig(cfg) && StoreOK(cfg, start) && LogOK(cfg, start, log) && i < |log|
        && IntentOK(cfg, log[i].intent)
    ensures SerialStep(cfg, DocumentsOf(StoreAfter(start, log, i)), log[i].intent)
        == (DocumentsOf(StoreAfter(start, log, i + 1)), log[i].result)
  {
    hide StoreOK, ValidConfig, LogOK, PlanOf, ApplyChange, SerialStep, IntentOK, CommitAllowed, DocumentsOf, SeenIn;
    HistoryKeepsStoreOK(cfg, start, log, i);
    EntryAt(cfg, start, log, i);
    PlanRefinesSerialStep(cfg, StoreAfter(start, log, i), log[i].intent, log[i].stamp);
  }

  lemma IntentsOfHistory(cfg: Config, start: Store, log: seq<Entry>)
    requires LogOK(cfg, start, log)
    ensures IntentsOK(cfg, log)
  {
  }

  /**
   Serialisability: whatever the interleaving, the documents in the store are
   those of running the committed intents alone, in commit order, and every
   committed result is the one its intent gives at its place in that order.
   */
  lemma Serialisable(cfg: Config, start: Store, steps: seq<Step>)
    requires RunFrom(cfg, start, steps)
    ensures var w := Reached(cfg, start, steps);
      && IntentsOK(cfg, w.log)
      && DocumentsOf(w.store) == SerialDocuments(cfg, DocumentsOf(start), w.log, |w.log|)
      && forall i :: 0 <= i < |w.log| ==>
           SerialStep(cfg, SerialDocuments(cfg, DocumentsOf(start), w.log, i), w.log[i].intent).1 == w.log[i].result
  {
    hide StoreOK, ValidConfig, LogOK, IntentOK, SerialDocuments, SerialStep, DocumentsOf, OperationOK, Reached;
    var w := Reached(cfg, start, steps);
    ReachedOK(cfg, start, steps);
    IntentsOfHistory(cfg, start, w.log);
    HistoryIsSerial(cfg, start, w.log, |w.log|);
    forall i | 0 <= i < |w.log|
      ensures SerialStep(cfg, SerialDocuments(cfg, DocumentsOf(start), w.log, i), w.log[i].intent).1 == w.log[i].result
    {
      HistoryIsSerial(cfg, start, w.log, i);
    }
  }

  // ---------- Reading ----------

  /**
   In every reachable store each collection reads back as its document, in any
   cursor order, and keeps no unreferenced file.
   */
  lemma EveryCollectionReadsBack(cfg: Config, start: Store, steps: seq<Step>, c: Text, arrived: seq<StoredRecord>)
    requires RunFrom(cfg, start, steps)
    requires c in Reached(cfg, start, steps).store.held
        && Rearranged(arrived, Reached(cfg, start, steps).store.held[c].records)
    ensures var held := Reached(cfg, start, steps).store.held[c];
      && c in cfg.definitions
      && Decoded(cfg.definitions[c], cfg.codec, held.manifest, arrived) == Some(held.document)
      && held.files.Keys <= FileKeys(cfg, c, cfg.definitions[c].references(held.document))
  {
    hide ValidConfig, LogOK, OperationOK, Reached, Decoded, FileKeys;
    var w := Reached(cfg, start, steps);
    ReachedOK(cfg, start, steps);
    HistoryKeepsStoreOK(cfg, start, w.log, |w.log|);
    assert HeldOK(cfg, c, w.store.held[c]);
    CursorOrderNeverMatters(cfg.definitions[c], cfg.codec, w.store.held[c].manifest, arrived, w.store.held[c].records);
  }

  // ---------- Truthful outcomes ----------

  /**
   Every failure but an unknown outcome means nothing was written, except that of
   an initialisation whose own commit was reported before its verifying read
   failed. No operation is ever written twice.
   */
  lemma FailuresAreTruthful(cfg: Config, start: Store, steps: seq<Step>, op: OperationId)
    requires RunFrom(cfg, start, steps)
    requires var w := Reached(cfg, start, steps); op in w.operations && w.operations[op].phase.Finished?
    ensures var w := Reached(cfg, start, steps);
      var outcome := w.operations[op].phase.outcome;
      && AtMostOneEntry(w.log, op)
      && (outcome.Failed? && outcome.code != CommitUnknown ==> NoEntry(w.log, op))
      && (outcome.Unchanged? ==> NoEntry(w.log, op))
      && (outcome.Unverified? && !outcome.created ==> NoEntry(w.log, op))
      && (outcome.Unverified? ==> w.operations[op].intent.Create? && (outcome.code == Missing ==> !outcome.created))
  {
    hide ValidConfig, LogOK, StoreOK, NoEntry, OneEntry, IntentOK, PlanOf, Reached;
    ReachedOK(cfg, start, steps);
    Known(cfg, start, Reached(cfg, start, steps), op);
  }

  /**
   An update that reports no change gives the serial result of its intent on the
   documents it read, and those already satisfy it.
   */
  lemma UnchangedIsSerial(cfg: Config, start: Store, steps: seq<Step>, op: OperationId)
    requires RunFrom(cfg, start, steps)
    requires var w := Reached(cfg, start, steps);
        op in w.operations && w.operations[op].phase.Finished? && w.operations[op].phase.outcome.Unchanged?
    ensures var w := Reached(cfg, start, steps);
      var at := w.operations[op].phase.outcome.at;
      && w.operations[op].started <= at <= |w.log|
      && IntentsOK(cfg, w.log) && IntentOK(cfg, w.operations[op].intent)
      && var documents := SerialDocuments(cfg, DocumentsOf(start), w.log, at);
         SerialStep(cfg, documents, w.operations[op].intent) == (documents, w.operations[op].phase.outcome.result)
  {
    hide ValidConfig, LogOK, StoreOK, NoEntry, IntentOK, PlanOf, Reached, SerialStep, SerialDocuments, DocumentsOf;
    var w := Reached(cfg, start, steps);
    var operation := w.operations[op];
    ReachedOK(cfg, start, steps);
    Known(cfg, start, w, op);
    IntentsOfHistory(cfg, start, w.log);
    var at := operation.phase.outcome.at;
    HistoryIsSerial(cfg, start, w.log, at);
    HistoryKeepsStoreOK(cfg, start, w.log, at);
    var stamp :| PlanOf(cfg, operation.intent, SeenIn(StoreAfter(start, w.log, at), operation.intent.collections),
                        stamp)
      == Keep(operation.phase.outcome.result);
    PlanRefinesSerialStep(cfg, StoreAfter(start, w.log, at), operation.intent, stamp);
  }

  /**
   Progress: an update gives up with a conflict only after three commits by others
   to its own collections while it ran, an upgrade only after one.
   */
  lemma ConflictsHaveRivals(cfg: Config, start: Store, steps: seq<Step>, op: OperationId)
    requires RunFrom(cfg, start, steps)
    requires var w := Reached(cfg, start, steps);
        op in w.operations && w.operations[op].phase == Finished(Failed(Conflict))
    ensures var w := Reached(cfg, start, steps);
      && Rivals(w.log, w.operations[op].started, |w.log|,
                w.operations[op].intent.collections) >= AttemptsOf(w.operations[op].intent)
      && NoEntry(w.log, op)
  {
    hide ValidConfig, LogOK, StoreOK, NoEntry, IntentOK, PlanOf, Reached;
    ReachedOK(cfg, start, steps);
    Known(cfg, start, Reached(cfg, start, steps), op);
  }

  // ---------- Creation ----------

  ghost predicate Creates(entry: Entry, c: Text)
  {
    c in entry.change.writes && c in entry.change.expected && entry.change.expected[c].None?
  }

  /** Each collection is created at most once, at revision one, never over leftover records or files. */
  lemma CreatedAtMostOnce(cfg: Config, start: Store, steps: seq<Step>, i: nat, j: nat, c: Text)
    requires RunFrom(cfg, start, steps)
    requires var log := Reached(cfg, start, steps).log; i <= j < |log| && Creates(log[i], c) && Creates(log[j], c)
    ensures var log := Reached(cfg, start, steps).log;
      && i == j && log[i].change.writes[c].manifest.revision == 1
      && c !in start.held && c !in start.stray
  {
    hide ValidConfig, StoreOK, IntentOK, PlanOf, Reached, OperationOK, ApplyChange, LogOK;
    var w := Reached(cfg, start, steps);
    ReachedOK(cfg, start, steps);
    var log := w.log;
    EntryAt(cfg, start, log, i);
    EntryAt(cfg, start, log, j);
    EntryRaisesRevision(cfg, StoreAfter(start, log, i), log[i], c);
    EntryRaisesRevision(cfg, StoreAfter(start, log, j), log[j], c);
    RevisionsGrow(cfg, start, log, 0, i, c);
    if i < j {
      RevisionsGrow(cfg, start, log, i + 1, j, c);
    }
    StrayNeverChanges(start, log, i);
  }

  lemma {:induction false} StrayNeverChanges(start: Store, log: seq<Entry>, n: nat)
    requires n <= |log|
    ensures StoreAfter(start, log, n).stray == start.stray
  {
    if n > 0 {
      StrayNeverChanges(start, log, n - 1);
    }
  }

  /** A creating operation creates only what it may: anything, or what its caller approved. */
  lemma CreatedWithApproval(cfg: Config, start: Store, steps: seq<Step>, i: nat, c: Text)
    requires RunFrom(cfg, start, steps)
    requires var log := Reached(cfg, start, steps).log; i < |log| && Creates(log[i], c)
    ensures var entry := Reached(cfg, start, steps).log[i];
      && entry.intent.Create? && MayCreate(entry.intent, c) && c in entry.intent.seeds
      && (c in entry.intent.approved ==> entry.intent.seeds[c].source != LegacyLocalStorage)
  {
    hide ValidConfig, StoreOK, PlanOf, Reached, OperationOK, ApplyChange, LogOK, DraftCreate;
    var w := Reached(cfg, start, steps);
    ReachedOK(cfg, start, steps);
    EntryAt(cfg, start, w.log, i);
    assert Permitted(w.log[i]);
    var entry, before := w.log[i], StoreAfter(start, w.log, i);
    var seen := SeenIn(before, entry.intent.collections);
    PlanShape(cfg, entry.intent, seen, entry.stamp);
    WriteIsDraft(cfg, entry.intent, seen, entry.stamp, c);
    SeedIsUsable(cfg, entry.intent, c, entry.stamp);
  }

  lemma SeedIsUsable(cfg: Config, intent: Intent, c: Text, stamp: Stamp)
    requires IntentOK(cfg, intent) && intent.Create? && c in intent.collections
    requires !DraftCreate(cfg, c, Absent, SeedFor(intent, c), c in intent.approved, stamp).Refused?
    ensures c in intent.seeds && (c in intent.approved ==> intent.seeds[c].source != LegacyLocalStorage)
  {
  }

  /** Initialisation that resolves has read every declared collection, and they stay present. */
  lemma ReadyMeansReadable(cfg: Config, start: Store, steps: seq<Step>, op: OperationId)
    requires RunFrom(cfg, start, steps)
    requires var w := Reached(cfg, start, steps);
      op in w.operations && w.operations[op].phase.Finished? && w.operations[op].phase.outcome.Ready?
    ensures var w := Reached(cfg, start, steps);
      var intent, outcome := w.operations[op].intent, w.operations[op].phase.outcome;
      && AllHeld(w.store, intent.collections) && w.operations[op].started <= outcome.at <= |w.log|
      && outcome.seen == SeenIn(StoreAfter(start, w.log, outcome.at), intent.collections)
      && forall c :: c in intent.collections ==> outcome.seen[c].Present?
  {
    hide ValidConfig, LogOK, StoreOK, NoEntry, OneEntry, IntentOK, PlanOf, Reached, StoreAfter;
    var w := Reached(cfg, start, steps);
    ReachedOK(cfg, start, steps);
    Known(cfg, start, w, op);
    LogOf(cfg, start, w);
    var at := w.operations[op].phase.outcome.at;
    forall c | c in w.operations[op].intent.collections ensures c in w.store.held {
      RevisionsGrow(cfg, start, w.log, at, |w.log|, c);
    }
  }
}

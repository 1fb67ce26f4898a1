/** Every step of the protocol keeps its invariant. */
module LocalDataSafety {
  import opened Basics
  import opened LocalDataContent
  import opened CommitPlan
  import opened CommitPlanLaws
  import opened LocalDataProtocol
  import opened CommitLog
  import opened LocalDataInvariant

  // ---------- Landing ----------

  /**
   A change that is allowed to land finds its collections exactly as it saw them,
   even if they were read at different times.
   */
  lemma LandingSeesCurrentStore(cfg: Config, start: Store, w: World, operation: Operation, flight: Flight)
    requires HistoryOK(cfg, start, w) && IntentOK(cfg, operation.intent)
    requires FlightOK(cfg, start, w.log, operation.started, operation.intent, flight)
        && CommitAllowed(w.store, flight.change)
    ensures SeenIn(w.store, operation.intent.collections) == flight.seen
  {
    hide LogOK, StoreOK, ValidConfig, PlanOf;
    PlanShape(cfg, operation.intent, flight.seen, flight.stamp);
    forall c | c in operation.intent.collections ensures SeenAt(w.store, c) == flight.seen[c] {
      assert ManifestAt(w.store, c) == flight.change.expected[c];
      if flight.seen[c].Present? {
        ManifestsNeverRecur(cfg, start, w.log, flight.at, |w.log|, |w.log|, c);
      }
    }
  }

  /** A refused comparison witnesses a commit by somebody else since the snapshot. */
  lemma ConflictHasRival(cfg: Config, start: Store, w: World, operation: Operation, flight: Flight)
    requires HistoryOK(cfg, start, w) && IntentOK(cfg, operation.intent) && !operation.intent.Create?
    requires FlightOK(cfg, start, w.log, operation.started, operation.intent, flight)
        && !Matches(w.store, flight.change.expected)
    ensures Rivals(w.log, operation.started, |w.log|, operation.intent.collections) >= flight.attempt
  {
    hide LogOK, StoreOK, ValidConfig, PlanOf, WriteFollows, StoreAfter, IntentOK;
    PlanShape(cfg, operation.intent, flight.seen, flight.stamp);
    var collections := operation.intent.collections;
    var c :| c in flight.change.expected && ManifestAt(w.store, c) != flight.change.expected[c];
    if Rivals(w.log, flight.at, |w.log|, collections) == 0 {
      NoRivalNoChange(cfg, start, w.log, flight.at, |w.log|, collections, c);
    }
    RivalsAdd(w.log, operation.started, flight.at, |w.log|, collections);
  }

  lemma LandAppliedOK(cfg: Config, start: Store, w: World, op: OperationId)
    requires WorldOK(cfg, start, w) && op in w.operations && Undecided(w.operations[op].phase)
    requires CommitAllowed(w.store, w.operations[op].phase.flight.change)
    ensures WorldOK(cfg, start, DoLand(w, op, Applied))
  {
    hide LogOK, StoreOK, ValidConfig, PlanOf, IntentOK, OneEntry, NoEntry, ApplyChange;
    var operation := w.operations[op];
    var flight := operation.phase.flight;
    var entry := Entry(op, operation.intent, flight.stamp, flight.change, flight.result);
    var next := DoLand(w, op, Applied);
    LandingSeesCurrentStore(cfg, start, w, operation, flight);
    LogExtends(cfg, start, w.log, entry);
    CapturedOKExtends(start, w.log, entry, operation.started, operation.intent, flight.attempt, flight.at, flight.seen);
    FlightIsPermitted(cfg, start, w.log, operation, flight);
    assert OneEntry(next.log, op, |w.log|) && next.log[|w.log|] == entry by { LoneEntry(w.log, entry); }
    forall other | other in next.operations ensures OperationOK(cfg, start, next.log, other, next.operations[other]) {
      if other != op {
        OthersSurviveCommit(cfg, start, w.log, entry, other, w.operations[other]);
      }
    }
  }

  lemma FlightIsPermitted(cfg: Config, start: Store, log: seq<Entry>, operation: Operation, flight: Flight)
    requires IntentOK(cfg, operation.intent) && FlightOK(cfg, start, log, operation.started, operation.intent, flight)
    ensures operation.intent.Create? ==> forall c :: c in flight.change.writes ==> MayCreate(operation.intent, c)
  {
    hide PlanOf;
    PlanShape(cfg, operation.intent, flight.seen, flight.stamp);
  }

  lemma LoneEntry(log: seq<Entry>, entry: Entry)
    requires NoEntry(log, entry.op)
    ensures OneEntry(log + [entry], entry.op, |log|)
  {
  }

  lemma LandRefusedOK(cfg: Config, start: Store, w: World, op: OperationId, code: Code)
    requires WorldOK(cfg, start, w) && op in w.operations && Undecided(w.operations[op].phase)
    requires LandingPossible(w, op, NotApplied(code))
    ensures WorldOK(cfg, start, DoLand(w, op, NotApplied(code)))
  {
    hide LogOK, StoreOK, ValidConfig, PlanOf, IntentOK, NoEntry;
    var operation := w.operations[op];
    var flight := operation.phase.flight;
    if code == Conflict && !operation.intent.Create? {
      ConflictHasRival(cfg, start, w, operation, flight);
    }
    var phase := if operation.phase.InFlight? then InFlight(flight, Some(NotApplied(code)))
        else Recovering(flight, Some(NotApplied(code)));
    MovingOneOperation(cfg, start, w, op, phase, Unknown);
  }

  // ---------- Creation ----------

  /** Once a creating commit is in the history, every collection it names is there to stay. */
  lemma CreatedStaysHeld(cfg: Config, start: Store, w: World, i: nat)
    requires HistoryOK(cfg, start, w) && i < |w.log| && w.log[i].intent.Create?
    ensures AllHeld(w.store, w.log[i].intent.collections)
  {
    hide StoreOK, ValidConfig, PlanOf, ApplyChange, IntentOK, CommitAllowed;
    var entry := w.log[i];
    var before := StoreAfter(start, w.log, i);
    HistoryKeepsStoreOK(cfg, start, w.log, i);
    assert EntryOK(cfg, before, entry);
    forall c | c in entry.intent.collections ensures c in w.store.held {
      NamedCollectionRefines(cfg, before, entry.intent, entry.stamp, c);
      RevisionsGrow(cfg, start, w.log, i + 1, |w.log|, c);
    }
  }

  // ---------- Reading ----------

  lemma CaptureOK(cfg: Config, start: Store, w: World, op: OperationId)
    requires WorldOK(cfg, start, w) && Enabled(cfg, w, Capture(op))
    ensures WorldOK(cfg, start, DoCapture(w, op))
  {
    hide LogOK, StoreOK, ValidConfig, PlanOf, IntentOK, NoEntry, WorldOK, StoreAfter, Rivals;
    Known(cfg, start, w, op);
    LogOf(cfg, start, w);
    MovingOneOperation(cfg, start, w, op, DoCapture(w, op).operations[op].phase, Unknown);
  }

  /** Outside creation, a snapshot is the store of one position of the history. */
  lemma SnapshotIsStore(start: Store, log: seq<Entry>, started: nat, intent: Intent, attempt: nat, at: nat,
                        seen: map<Text, Seen>)
    requires CapturedOK(start, log, started, intent, attempt, at, seen) && !intent.Create?
    ensures SeenIn(StoreAfter(start, log, at), intent.collections) == seen
  {
  }

  lemma SnapshotBounds(start: Store, log: seq<Entry>, started: nat, intent: Intent, attempt: nat, at: nat,
                       seen: map<Text, Seen>)
    requires CapturedOK(start, log, started, intent, attempt, at, seen)
    ensures started <= at <= |log| && 1 <= attempt <= MAX_UPDATE_ATTEMPTS && seen.Keys == intent.collections
  {
  }

  lemma UpgradeNeverKeeps(cfg: Config, intent: Intent, seen: map<Text, Seen>, stamp: Stamp)
    requires IntentOK(cfg, intent) && intent.Upgrade? && seen.Keys == intent.collections
    ensures !PlanOf(cfg, intent, seen, stamp).Keep?
  {
    hide DraftUpgrade;
    if AnswerOf(intent, seen).Some? {
      var drafts := DraftsOf(cfg, intent, seen, AnswerOf(intent, seen).value.0, stamp);
      var writes := map d | d in drafts && drafts[d].Drafted? :: drafts[d].write;
      var c :| c in intent.collections;
      UpgradesOrRefuses(cfg, c, seen[c], stamp);
      assert drafts[c].Refused? || c in writes;
    }
  }

  lemma ProposeOK(cfg: Config, start: Store, w: World, op: OperationId, stamp: Stamp)
    requires WorldOK(cfg, start, w) && Enabled(cfg, w, Propose(op, stamp))
    ensures WorldOK(cfg, start, DoPropose(cfg, w, op, stamp))
  {
    hide LogOK, StoreOK, ValidConfig, PlanOf, IntentOK, NoEntry, WorldOK, CapturedOK, StoreAfter, Rivals;
    var operation := w.operations[op];
    var phase := operation.phase;
    Known(cfg, start, w, op);
    if !operation.intent.Create? {
      SnapshotIsStore(start, w.log, operation.started, operation.intent, phase.attempt, phase.at, phase.seen);
    }
    if PlanOf(cfg, operation.intent, phase.seen, stamp).Keep? && operation.intent.Upgrade? {
      UpgradeNeverKeeps(cfg, operation.intent, phase.seen, stamp);
    }
    SnapshotBounds(start, w.log, operation.started, operation.intent, phase.attempt, phase.at, phase.seen);
    MovingOneOperation(cfg, start, w, op, DoPropose(cfg, w, op, stamp).operations[op].phase, Unknown);
  }

  // ---------- Acknowledgement and recovery ----------

  /** The commit is reported: its transaction took effect, or recovery found its proposal in place. */
  ghost predicate Reported(w: World, op: OperationId)
    requires op in w.operations && (w.operations[op].phase.InFlight? || w.operations[op].phase.Recovering?)
  {
    var phase := w.operations[op].phase;
    phase.landed == Some(Applied) || (phase.Recovering? && ProposalInPlace(w.store, phase.flight.change))
  }

  lemma SavedOK(cfg: Config, start: Store, w: World, op: OperationId)
    requires op in w.operations && (w.operations[op].phase.InFlight? || w.operations[op].phase.Recovering?)
    requires Reported(w, op)
    requires WorldOK(cfg, start, w)
    ensures PhaseOK(cfg, start, w.log, op, w.operations[op].(phase := AfterSave(w.operations[op])))
  {
    hide LogOK, StoreOK, ValidConfig, PlanOf, IntentOK, CapturedOK, WorldOK, AllHeld, AllCurrent, Reported;
    LogOf(cfg, start, w);
    Known(cfg, start, w, op);
    match w.operations[op].intent {
      case Update(_, _, _, _) =>
      case Create(_, _, _, _) => CreationIsHeld(cfg, start, w, op);
      case Upgrade(_, _) => UpgradeIsCurrent(cfg, start, w, op);
    }
  }

  /** A creation reported as committed finds all its collections present. */
  lemma CreationIsHeld(cfg: Config, start: Store, w: World, op: OperationId)
    requires op in w.operations && w.operations[op].intent.Create?
    requires (w.operations[op].phase.InFlight? || w.operations[op].phase.Recovering?) && Reported(w, op)
    requires WorldOK(cfg, start, w)
    ensures AllHeld(w.store, w.operations[op].intent.collections)
  {
    hide LogOK, StoreOK, ValidConfig, PlanOf, IntentOK, WorldOK, AllHeld, StoreAfter, OneEntry, NoEntry;
    var operation, flight := w.operations[op], w.operations[op].phase.flight;
    LogOf(cfg, start, w);
    History(cfg, start, w);
    Known(cfg, start, w, op);
    if operation.phase.landed == Some(Applied) {
      var i := EntryOf(w.log, op, flight);
      CreatedStaysHeld(cfg, start, w, i);
    } else {
      PlanShape(cfg, operation.intent, flight.seen, flight.stamp);
      forall c | c in operation.intent.collections ensures c in w.store.held {
        if flight.seen[c].Present? {
          RevisionsGrow(cfg, start, w.log, flight.at, |w.log|, c);
        }
      }
      assert AllHeld(w.store, operation.intent.collections) by { HeldAll(w.store, operation.intent.collections); }
    }
  }

  lemma HeldAll(store: Store, collections: set<Text>)
    requires forall c :: c in collections ==> c in store.held
    ensures AllHeld(store, collections)
  {
  }

  lemma EntryOf(log: seq<Entry>, op: OperationId, flight: Flight) returns (i: nat)
    requires exists k :: flight.at <= k && OneEntry(log, op, k) && log[k].change == flight.change
    ensures flight.at <= i < |log| && OneEntry(log, op, i) && log[i].change == flight.change
  {
    i :| flight.at <= i && OneEntry(log, op, i) && log[i].change == flight.change;
  }

  /** An upgrade reported as committed finds its collections in the current schema version. */
  lemma UpgradeIsCurrent(cfg: Config, start: Store, w: World, op: OperationId)
    requires op in w.operations && w.operations[op].intent.Upgrade?
    requires (w.operations[op].phase.InFlight? || w.operations[op].phase.Recovering?) && Reported(w, op)
    requires WorldOK(cfg, start, w)
    ensures AllCurrent(cfg, w.store, w.operations[op].intent.collections)
  {
    hide LogOK, StoreOK, ValidConfig, PlanOf, IntentOK, WorldOK, StoreAfter, OneEntry, NoEntry;
    var operation, flight := w.operations[op], w.operations[op].phase.flight;
    LogOf(cfg, start, w);
    Known(cfg, start, w, op);
    UpgradeWritesAll(cfg, operation.intent, flight.seen, flight.stamp);
    forall c | c in operation.intent.collections ensures Current(cfg, w.store, c) {
      if operation.phase.landed == Some(Applied) {
        var i := EntryOf(w.log, op, flight);
        WrittenIsCurrent(cfg, start, w.log, i, c);
      }
    }
  }

  lemma UpgradeWritesAll(cfg: Config, intent: Intent, seen: map<Text, Seen>, stamp: Stamp)
    requires IntentOK(cfg, intent) && intent.Upgrade? && seen.Keys == intent.collections
    requires PlanOf(cfg, intent, seen, stamp).Proceed?
    ensures var writes := PlanOf(cfg, intent, seen, stamp).change.writes;
      forall c :: c in intent.collections ==>
        c in writes && c in cfg.definitions && writes[c].manifest.schemaVersion == cfg.definitions[c].schemaVersion
  {
    hide DraftUpgrade;
    var outputs := AnswerOf(intent, seen).value.0;
    var drafts := DraftsOf(cfg, intent, seen, outputs, stamp);
    PlanShape(cfg, intent, seen, stamp);
    var writes := PlanOf(cfg, intent, seen, stamp).change.writes;
    forall c | c in intent.collections
      ensures c in writes && c in cfg.definitions
          && writes[c].manifest.schemaVersion == cfg.definitions[c].schemaVersion
    {
      UpgradesOrRefuses(cfg, c, seen[c], stamp);
      assert drafts[c].Drafted?;
      assert WriteFollows(cfg, c, seen[c], writes[c], stamp);
    }
  }

  lemma UpgradesOrRefuses(cfg: Config, c: Text, seen: Seen, stamp: Stamp)
    requires c in cfg.definitions
    ensures !DraftUpgrade(cfg, c, seen, stamp).Untouched?
  {
  }

  lemma WrittenIsCurrent(cfg: Config, start: Store, log: seq<Entry>, i: nat, c: Text)
    requires LogOK(cfg, start, log) && i < |log| && c in log[i].change.writes
    ensures Current(cfg, StoreAfter(start, log, |log|), c)
  {
    hide EntryOK, ApplyChange, Current;
    EntryAt(cfg, start, log, i);
    EntryWritesCurrent(cfg, StoreAfter(start, log, i), log[i], c);
    CurrentStays(cfg, start, log, i + 1, |log|, c);
  }

  lemma AcknowledgeOK(cfg: Config, start: Store, w: World, op: OperationId)
    requires op in w.operations && w.operations[op].phase.InFlight? && w.operations[op].phase.landed.Some?
    requires WorldOK(cfg, start, w)
    ensures WorldOK(cfg, start, DoAcknowledge(w, op))
  {
    hide LogOK, StoreOK, ValidConfig, PlanOf, IntentOK, NoEntry, OneEntry, WorldOK, CapturedOK, Rivals, AllHeld, Moved,
        MovedTo;
    var operation := w.operations[op];
    Known(cfg, start, w, op);
    var phase :=
      match operation.phase.landed.value
      case Applied => AfterSave(operation)
      case NotApplied(Conflict) =>
        if operation.intent.Create? then Verifying(false)
        else if operation.intent.Update? && operation.phase.flight.attempt < MAX_UPDATE_ATTEMPTS
        then Idle(operation.phase.flight.attempt + 1)
        else Finished(Failed(Conflict))
      case NotApplied(code) => Finished(Failed(code));
    var flight := operation.phase.flight;
    SnapshotBounds(start, w.log, operation.started, operation.intent, flight.attempt, flight.at, flight.seen);
    if operation.phase.landed == Some(Applied) {
      SavedOK(cfg, start, w, op);
    }
    assert PhaseOK(cfg, start, w.log, op, operation.(phase := phase));
    MovingOneOperation(cfg, start, w, op, phase, Unknown);
  }

  lemma Known(cfg: Config, start: Store, w: World, op: OperationId)
    requires WorldOK(cfg, start, w) && op in w.operations
    ensures OperationOK(cfg, start, w.log, op, w.operations[op])
  {
  }

  lemma SeenKeys(start: Store, log: seq<Entry>, started: nat, intent: Intent, flight: Flight)
    requires CapturedOK(start, log, started, intent, flight.attempt, flight.at, flight.seen)
    ensures flight.seen.Keys == intent.collections
  {
  }

  /**
   Finding the expected manifests still in place proves that the change never
   took effect, whatever committed meanwhile.
   */
  lemma ExpectationProvesNotApplied(cfg: Config, start: Store, w: World, op: OperationId)
    requires WorldOK(cfg, start, w) && op in w.operations && w.operations[op].phase.Rereading?
    requires ExpectationInPlace(w.store, w.operations[op].phase.flight.change)
    ensures NoEntry(w.log, op)
  {
    hide LogOK, StoreOK, ValidConfig, PlanOf, IntentOK, CapturedOK, ApplyChange, EntryOK, WorldOK, HistoryOK,
        StoreAfter, WriteFollows;
    var operation := w.operations[op];
    var flight := operation.phase.flight;
    LogOf(cfg, start, w);
    Known(cfg, start, w, op);
    assert flight.seen.Keys
        == operation.intent.collections by { SeenKeys(start, w.log, operation.started, operation.intent, flight); }
    PlanShape(cfg, operation.intent, flight.seen, flight.stamp);
    if operation.phase.landed == Some(Applied) {
      var i := EntryOf(w.log, op, flight);
      var c :| c in flight.change.writes;
      EntryAt(cfg, start, w.log, i);
      NextStore(start, w.log, i);
      EntryRaisesRevision(cfg, StoreAfter(start, w.log, i), w.log[i], c);
      RevisionsGrow(cfg, start, w.log, i + 1, |w.log|, c);
    }
  }

  lemma RecoverOK(cfg: Config, start: Store, w: World, step: Step)
    requires WorldOK(cfg, start, w) && Enabled(cfg, w, step) && (step.Reconcile? || step.Settle?)
    ensures WorldOK(cfg, start, Do(cfg, w, step))
  {
    hide LogOK, StoreOK, ValidConfig, PlanOf, IntentOK, NoEntry, OneEntry, WorldOK, CapturedOK;
    Known(cfg, start, w, step.op);
    if step.Reconcile? {
      if step.readable && ProposalInPlace(w.store, w.operations[step.op].phase.flight.change) {
        SavedOK(cfg, start, w, step.op);
      }
    } else if step.readable && ExpectationInPlace(w.store, w.operations[step.op].phase.flight.change) {
      ExpectationProvesNotApplied(cfg, start, w, step.op);
    }
    MovingOneOperation(cfg, start, w, step.op, Do(cfg, w, step).operations[step.op].phase,
                       StateOf(Do(cfg, w, step), w.operations[step.op].provider));
  }

  // ---------- All steps ----------

  lemma SurveyOK(cfg: Config, start: Store, w: World, op: OperationId)
    requires Enabled(cfg, w, Survey(op))
    requires WorldOK(cfg, start, w)
    ensures WorldOK(cfg, start, Do(cfg, w, Survey(op)))
  {
    hide LogOK, StoreOK, ValidConfig, PlanOf, IntentOK, NoEntry, OneEntry, WorldOK, CapturedOK, HistoryOK, AfterSurvey,
        PhaseOK;
    Known(cfg, start, w, op);
    LogOf(cfg, start, w);
    SurveyPhaseOK(cfg, start, w, op);
    MovingOneOperation(cfg, start, w, op, Do(cfg, w, Survey(op)).operations[op].phase, Unknown);
  }

  lemma SurveyPhaseOK(cfg: Config, start: Store, w: World, op: OperationId)
    requires op in w.operations && w.operations[op].phase.Idle? && w.operations[op].intent.Create?
    requires OperationOK(cfg, start, w.log, op, w.operations[op]) && LogOK(cfg, start, w.log)
    requires w.store == StoreAfter(start, w.log, |w.log|)
    ensures var operation := w.operations[op];
      PhaseOK(cfg, start, w.log, op,
              operation.(phase := AfterSurvey(operation.intent, operation.intent.collections - w.store.held.Keys)))
  {
    hide LogOK, IntentOK, NoEntry, OneEntry, StoreAfter;
    var started := w.operations[op].started;
    forall c | c !in w.store.held ensures c !in StoreAfter(start, w.log, started).held {
      RevisionsGrow(cfg, start, w.log, started, |w.log|, c);
    }
  }

  lemma VerifyOK(cfg: Config, start: Store, w: World, op: OperationId)
    requires Enabled(cfg, w, Verify(op))
    requires WorldOK(cfg, start, w)
    ensures WorldOK(cfg, start, Do(cfg, w, Verify(op)))
  {
    hide LogOK, StoreOK, ValidConfig, PlanOf, IntentOK, NoEntry, OneEntry, WorldOK, CapturedOK, HistoryOK, StoreAfter,
        FlightOK, LandedOK;
    Known(cfg, start, w, op);
    LogOf(cfg, start, w);
    MovingOneOperation(cfg, start, w, op, Do(cfg, w, Verify(op)).operations[op].phase, Unknown);
  }

  lemma LeaveStepOK(cfg: Config, start: Store, w: World, step: Step)
    requires step.Refuse? || step.Abandon? || step.ReadFails? || step.NeverSent? || step.TimeOut?
    requires Enabled(cfg, w, step)
    requires WorldOK(cfg, start, w)
    ensures WorldOK(cfg, start, Do(cfg, w, step))
  {
    hide LogOK, StoreOK, ValidConfig, PlanOf, IntentOK, NoEntry, OneEntry, WorldOK, CapturedOK;
    Known(cfg, start, w, step.op);
    MovingOneOperation(cfg, start, w, step.op, Do(cfg, w, step).operations[step.op].phase,
                       StateOf(Do(cfg, w, step), w.operations[step.op].provider));
  }

  lemma LogOf(cfg: Config, start: Store, w: World)
    requires WorldOK(cfg, start, w)
    ensures LogOK(cfg, start, w.log) && w.store == StoreAfter(start, w.log, |w.log|)
  {
  }

  lemma CloseOK(cfg: Config, start: Store, w: World, provider: ProviderId)
    requires WorldOK(cfg, start, w)
    ensures WorldOK(cfg, start, Do(cfg, w, Close(provider)))
  {
    hide LogOK, StoreOK, ValidConfig, OperationOK;
  }

  lemma History(cfg: Config, start: Store, w: World)
    requires WorldOK(cfg, start, w)
    ensures HistoryOK(cfg, start, w)
  {
  }

  lemma BeginOK(cfg: Config, start: Store, w: World, op: OperationId, provider: ProviderId, intent: Intent)
    requires WorldOK(cfg, start, w) && Enabled(cfg, w, Begin(op, provider, intent))
    ensures WorldOK(cfg, start, Do(cfg, w, Begin(op, provider, intent)))
  {
    hide LogOK, StoreOK, ValidConfig, PlanOf, IntentOK;
    assert NoEntry(w.log, op);
  }

  lemma BeginUpgradeOK(cfg: Config, start: Store, w: World, op: OperationId, call: OperationId, c: Text)
    requires WorldOK(cfg, start, w) && Enabled(cfg, w, BeginUpgrade(op, call, c))
    ensures WorldOK(cfg, start, Do(cfg, w, BeginUpgrade(op, call, c)))
  {
    hide LogOK, StoreOK, ValidConfig, PlanOf, StoreAfter, OperationOK;
    var next := Do(cfg, w, BeginUpgrade(op, call, c));
    History(cfg, start, w);
    Known(cfg, start, w, call);
    assert NoEntry(w.log, op);
    assert OperationOK(cfg, start, w.log, op, next.operations[op]) by { UpgradeBeginsOK(cfg, start, w, op, call, c); }
    forall other | other in next.operations ensures OperationOK(cfg, start, w.log, other, next.operations[other]) {
      if other != op {
        Known(cfg, start, w, other);
      }
    }
  }

  lemma UpgradeBeginsOK(cfg: Config, start: Store, w: World, op: OperationId, call: OperationId, c: Text)
    requires Enabled(cfg, w, BeginUpgrade(op, call, c)) && NoEntry(w.log, op)
    requires OperationOK(cfg, start, w.log, call, w.operations[call])
    ensures OperationOK(cfg, start, w.log, op, Do(cfg, w, BeginUpgrade(op, call, c)).operations[op])
  {
    hide PlanOf, StoreAfter, LandedOK, FlightOK, NoEntry;
  }

  lemma StepKeepsWorldOK(cfg: Config, start: Store, w: World, step: Step)
    requires WorldOK(cfg, start, w) && Enabled(cfg, w, step)
    ensures WorldOK(cfg, start, Do(cfg, w, step))
  {
    hide HistoryOK, OperationOK, PlanOf, IntentOK;
    match step {
      case Begin(op, provider, intent) => BeginOK(cfg, start, w, op, provider, intent);
      case BeginUpgrade(op, call, c) => BeginUpgradeOK(cfg, start, w, op, call, c);
      case Capture(op) => CaptureOK(cfg, start, w, op);
      case Propose(op, stamp) => ProposeOK(cfg, start, w, op, stamp);
      case Land(op, landing) =>
        if landing.Applied? {
          LandAppliedOK(cfg, start, w, op);
        } else {
          LandRefusedOK(cfg, start, w, op, landing.code);
        }
      case Acknowledge(op) => AcknowledgeOK(cfg, start, w, op);
      case Reconcile(_, _) => RecoverOK(cfg, start, w, step);
      case Settle(_, _) => RecoverOK(cfg, start, w, step);
      case Close(provider) => CloseOK(cfg, start, w, provider);
      case Survey(op) => SurveyOK(cfg, start, w, op);
      case Verify(op) => VerifyOK(cfg, start, w, op);
      case _ => LeaveStepOK(cfg, start, w, step);
    }
  }

  lemma {:induction false} RunKeepsWorldOK(cfg: Config, start: Store, w: World, steps: seq<Step>)
    requires WorldOK(cfg, start, w) && Runs(cfg, w, steps)
    ensures WorldOK(cfg, start, After(cfg, w, steps))
    decreases |steps|
  {
    hide WorldOK, Enabled, Do;
    if steps != [] {
      StepKeepsWorldOK(cfg, start, w, steps[0]);
      RunKeepsWorldOK(cfg, start, Do(cfg, w, steps[0]), steps[1..]);
    }
  }
}

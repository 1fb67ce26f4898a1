/**
 Recovery after a timed-out commit: when its verdict can be trusted, exactly
 what makes it wrong, and how long an unknown outcome blocks a provider.
 */
module LocalDataRecovery {
  import opened Basics
  import opened LocalDataContent
  import opened CommitPlan
  import opened CommitPlanLaws
  import opened LocalDataProtocol
  import opened CommitLog
  import opened LocalDataInvariant
  import opened LocalDataSafety
  import opened LocalDataGuarantees

  // ---------- Twins ----------

  /** Another operation committed, for every collection of the change, a manifest equal to the proposed one. */
  ghost predicate HasTwins(log: seq<Entry>, op: OperationId, change: Change)
  {
    forall c :: c in change.writes ==>
      exists k :: 0 <= k < |log| && log[k].op != op && c in log[k].change.writes
          && log[k].change.writes[c].manifest == change.writes[c].manifest
  }

  /**
   The verdict "committed" for a commit that never took effect needs a twin: a
   foreign commit with the same revision, content and time.
   */
  lemma WrongVerdictNeedsTwins(cfg: Config, start: Store, w: World, op: OperationId)
    requires op in w.operations && w.operations[op].phase.Recovering?
    requires ProposalInPlace(w.store, w.operations[op].phase.flight.change)
    requires w.operations[op].phase.landed != Some(Applied)
    requires WorldOK(cfg, start, w)
    ensures HasTwins(w.log, op, w.operations[op].phase.flight.change)
    ensures exists k ::
        0 <= k < |w.log| && w.log[k].op != op
            && w.log[k].stamp.updatedAt == w.operations[op].phase.flight.stamp.updatedAt
  {
    hide WorldOK, ProposalInPlace, IsTwin;
    var change := w.operations[op].phase.flight.change;
    SomethingIsWritten(cfg, start, w, op);
    forall c | c in change.writes ensures exists k :: IsTwin(w, op, c, k) {
      var k := TwinOf(cfg, start, w, op, c);
    }
    var c :| c in change.writes;
    var k :| IsTwin(w, op, c, k);
    TwinsCount(w, op);
  }

  /** Entry `k` is a foreign commit of the manifest proposed for `c`, at the same time. */
  ghost predicate IsTwin(w: World, op: OperationId, c: Text, k: int)
    requires op in w.operations && w.operations[op].phase.Recovering?
        && c in w.operations[op].phase.flight.change.writes
  {
    var flight := w.operations[op].phase.flight;
    && 0 <= k < |w.log| && w.log[k].op != op && c in w.log[k].change.writes
    && w.log[k].change.writes[c].manifest == flight.change.writes[c].manifest
    && w.log[k].stamp.updatedAt == flight.stamp.updatedAt
  }

  lemma TwinsCount(w: World, op: OperationId)
    requires op in w.operations && w.operations[op].phase.Recovering?
    requires var change := w.operations[op].phase.flight.change;
      change.writes != map[] && forall c :: c in change.writes ==> exists k :: IsTwin(w, op, c, k)
    ensures HasTwins(w.log, op, w.operations[op].phase.flight.change)
    ensures exists k ::
        0 <= k < |w.log| && w.log[k].op != op
            && w.log[k].stamp.updatedAt == w.operations[op].phase.flight.stamp.updatedAt
  {
  }

  lemma SomethingIsWritten(cfg: Config, start: Store, w: World, op: OperationId)
    requires op in w.operations && w.operations[op].phase.Recovering?
    requires WorldOK(cfg, start, w)
    ensures w.operations[op].phase.flight.change.writes != map[]
  {
    hide StoreOK, ValidConfig, PlanOf, IntentOK, WorldOK, LogOK;
    Known(cfg, start, w, op);
    PlanShape(cfg, w.operations[op].intent, w.operations[op].phase.flight.seen, w.operations[op].phase.flight.stamp);
  }

  lemma TwinOf(cfg: Config, start: Store, w: World, op: OperationId, c: Text) returns (k: nat)
    requires op in w.operations && w.operations[op].phase.Recovering?
    requires ProposalInPlace(w.store, w.operations[op].phase.flight.change)
        && c in w.operations[op].phase.flight.change.writes
    requires w.operations[op].phase.landed != Some(Applied)
    requires WorldOK(cfg, start, w)
    ensures IsTwin(w, op, c, k) && LastWriter(w.log, k, |w.log|, c)
  {
    hide StoreOK, ValidConfig, WorldOK, LogOK, SeenAt, ManifestAt, StoreAfter;
    var flight := w.operations[op].phase.flight;
    var from := AdriftFacts(cfg, start, w, op, c);
    ProposalIsNew(StoreAfter(start, w.log, from), w.store, flight, c);
    k := SomeEntryWrote(cfg, start, w.log, from, |w.log|, c);
    assert w.log[k].op != op;
  }

  /**
   What is known of a commit adrift whose transaction did not take effect. The
   store after `from` commits held the collection as it was seen: at the snapshot,
   or, for a collection seen missing, when the call began.
   */
  lemma AdriftFacts(cfg: Config, start: Store, w: World, op: OperationId, c: Text) returns (from: nat)
    requires op in w.operations && w.operations[op].phase.Recovering?
    requires w.operations[op].phase.landed != Some(Applied) && c in w.operations[op].phase.flight.change.writes
    requires WorldOK(cfg, start, w)
    ensures var flight := w.operations[op].phase.flight;
      && from <= |w.log| && LogOK(cfg, start, w.log) && w.store == StoreAfter(start, w.log, |w.log|)
      && NoEntry(w.log, op)
      && c in flight.seen && SeenAt(StoreAfter(start, w.log, from), c) == flight.seen[c]
      && (flight.seen[c].Present? ==> flight.change.writes[c].manifest.revision == flight.seen[c].manifest.revision + 1)
      && flight.change.writes[c].manifest.updatedAt == flight.stamp.updatedAt
  {
    hide StoreOK, ValidConfig, PlanOf, IntentOK, WorldOK, LogOK, OneEntry, NoEntry, StoreAfter, ManifestReadable,
        ContentMatches;
    var operation := w.operations[op];
    var flight := operation.phase.flight;
    Known(cfg, start, w, op);
    LogOf(cfg, start, w);
    PlanShape(cfg, operation.intent, flight.seen, flight.stamp);
    assert WriteFollows(cfg, c, flight.seen[c], flight.change.writes[c], flight.stamp);
    from := if flight.seen[c].Present? then flight.at else operation.started;
  }

  /** The proposed revision is one above the one seen, so the proposal was not there yet. */
  lemma ProposalIsNew(earlier: Store, now: Store, flight: Flight, c: Text)
    requires c in flight.seen && SeenAt(earlier, c) == flight.seen[c] && c in flight.change.writes
    requires flight.seen[c].Present? ==>
      flight.change.writes[c].manifest.revision == flight.seen[c].manifest.revision + 1
    requires flight.change.writes[c].manifest.updatedAt == flight.stamp.updatedAt
    requires ProposalInPlace(now, flight.change)
    ensures ManifestAt(earlier, c) != ManifestAt(now, c)
    ensures c in now.held && now.held[c].manifest == flight.change.writes[c].manifest
        && now.held[c].manifest.updatedAt == flight.stamp.updatedAt
  {
  }

  /** The entry a written collection owes its current manifest to is a twin. */
  ghost predicate HeldByTwin(w: World, op: OperationId, c: Text)
    requires op in w.operations && w.operations[op].phase.Recovering?
        && c in w.operations[op].phase.flight.change.writes
  {
    exists k :: IsTwin(w, op, c, k) && LastWriter(w.log, k, |w.log|, c)
  }

  /**
   Exactly when the verdict is wrong: a commit that did not take effect is taken
   for committed if and only if every collection it would have written currently
   holds what a foreign commit of the same time, revision and content wrote.
   */
  lemma VerdictIsWrongExactlyWithTwins(cfg: Config, start: Store, w: World, op: OperationId)
    requires op in w.operations && w.operations[op].phase.Recovering?
    requires w.operations[op].phase.landed != Some(Applied)
    requires WorldOK(cfg, start, w)
    ensures ProposalInPlace(w.store, w.operations[op].phase.flight.change) <==>
      forall c :: c in w.operations[op].phase.flight.change.writes ==> HeldByTwin(w, op, c)
  {
    hide WorldOK, LogOK, IsTwin, LastWriter, StoreAfter;
    var change := w.operations[op].phase.flight.change;
    LogOf(cfg, start, w);
    if ProposalInPlace(w.store, change) {
      forall c | c in change.writes ensures HeldByTwin(w, op, c) {
        var k := TwinOf(cfg, start, w, op, c);
      }
    } else {
      var c :| c in change.writes && ManifestAt(w.store, c) != Some(change.writes[c].manifest);
      if HeldByTwin(w, op, c) {
        var k :| IsTwin(w, op, c, k) && LastWriter(w.log, k, |w.log|, c);
        TwinShows(start, w, op, c, k);
      }
    }
  }

  lemma TwinShows(start: Store, w: World, op: OperationId, c: Text, k: int)
    requires op in w.operations && w.operations[op].phase.Recovering?
        && c in w.operations[op].phase.flight.change.writes
    requires IsTwin(w, op, c, k) && LastWriter(w.log, k, |w.log|, c) && w.store == StoreAfter(start, w.log, |w.log|)
    ensures ManifestAt(w.store, c) == Some(w.operations[op].phase.flight.change.writes[c].manifest)
  {
    LastWriterShows(start, w.log, k, |w.log|, c);
  }

  // ---------- Distinct commit times ----------

  predicate Flying(phase: Phase) { phase.InFlight? || phase.Recovering? || phase.Rereading? }

  /** No transaction committed or under way carries this time. */
  ghost predicate FreshTime(w: World, updatedAt: nat)
  {
    && (forall i :: 0 <= i < |w.log| ==> w.log[i].stamp.updatedAt != updatedAt)
    && (forall op :: op in w.operations && Flying(w.operations[op].phase) ==>
        w.operations[op].phase.flight.stamp.updatedAt != updatedAt)
  }

  /** A run in which no two transactions are proposed with the same time. */
  ghost predicate DistinctTimes(cfg: Config, w: World, steps: seq<Step>)
    requires Runs(cfg, w, steps)
    decreases |steps|
  {
    steps == [] || ((steps[0].Propose? ==> FreshTime(w, steps[0].stamp.updatedAt))
                    && DistinctTimes(cfg, Do(cfg, w, steps[0]), steps[1..]))
  }

  ghost predicate TimesApart(w: World)
  {
    && (forall op, i ::
        op in w.operations && Flying(w.operations[op].phase) && 0 <= i < |w.log| && w.log[i].op != op ==>
          w.log[i].stamp.updatedAt != w.operations[op].phase.flight.stamp.updatedAt)
    && (forall a, b ::
        a in w.operations && b in w.operations && a != b && Flying(w.operations[a].phase)
            && Flying(w.operations[b].phase) ==>
          w.operations[a].phase.flight.stamp.updatedAt != w.operations[b].phase.flight.stamp.updatedAt)
  }

  /** A commit reported as successful is in the history, once, and a saved update with the reported result. */
  ghost predicate SavedOnce(w: World, op: OperationId)
    requires op in w.operations
  {
    && (ReportedCreated(w.operations[op].phase) ==> exists i :: OneEntry(w.log, op, i))
    && (w.operations[op].phase.Finished? && w.operations[op].phase.outcome.Saved? ==>
          exists i :: OneEntry(w.log, op, i) && w.log[i].result == w.operations[op].phase.outcome.result)
  }

  /** Initialisation was told that its own commit succeeded. */
  predicate ReportedCreated(phase: Phase)
  {
    || phase == Verifying(true)
    || (phase.Finished? && (phase.outcome.Ready? || phase.outcome.Unverified?) && phase.outcome.created)
  }

  ghost predicate RecoveryOK(w: World)
  {
    TimesApart(w) && forall op :: op in w.operations ==> SavedOnce(w, op)
  }

  lemma TimesApartAfterMove(w: World, op: OperationId, phase: Phase, state: CommitState)
    requires TimesApart(w) && op in w.operations
    requires Flying(phase) ==>
      (Flying(w.operations[op].phase) && w.operations[op].phase.flight == phase.flight)
          || FreshTime(w, phase.flight.stamp.updatedAt)
    ensures TimesApart(Moved(w, op, phase)) && TimesApart(MovedTo(w, op, phase, state))
  {
  }

  lemma TimesApartAfterLanding(w: World, op: OperationId)
    requires TimesApart(w) && op in w.operations && Undecided(w.operations[op].phase)
    ensures TimesApart(DoLand(w, op, Applied))
  {
  }

  lemma TimesStayApart(cfg: Config, w: World, step: Step)
    requires Enabled(cfg, w, step) && TimesApart(w)
    requires step.Propose? ==> FreshTime(w, step.stamp.updatedAt)
    ensures TimesApart(Do(cfg, w, step))
  {
    hide PlanOf, IntentOK, TimesApart, FreshTime, CommitAllowed, Matches, ReplacesStray;
    match step {
      case Begin(_, _, _) => TimesApartAfterBegin(cfg, w, step);
      case BeginUpgrade(_, _, _) => TimesApartAfterBegin(cfg, w, step);
      case Close(_) => TimesApartAfterBegin(cfg, w, step);
      case Land(op, Applied) => TimesApartAfterLanding(w, op);
      case _ =>
        var next := Do(cfg, w, step);
        TimesApartAfterMove(w, step.op, next.operations[step.op].phase, StateOf(next, w.operations[step.op].provider));
    }
  }

  lemma TimesApartAfterBegin(cfg: Config, w: World, step: Step)
    requires step.Begin? || step.BeginUpgrade? || step.Close?
    requires Enabled(cfg, w, step) && TimesApart(w)
    ensures TimesApart(Do(cfg, w, step))
  {
    hide IntentOK;
  }

  // ---------- Saved means saved ----------

  /** With distinct times, a commit that is reported is in the history, whether acknowledged or recovered. */
  lemma SavedStepOK(cfg: Config, start: Store, w: World, op: OperationId)
    requires op in w.operations
    requires w.operations[op].phase.InFlight? || w.operations[op].phase.Recovering?
    requires w.operations[op].phase.InFlight? ==> w.operations[op].phase.landed == Some(Applied)
    requires w.operations[op].phase.Recovering? ==> ProposalInPlace(w.store, w.operations[op].phase.flight.change)
    requires WorldOK(cfg, start, w) && TimesApart(w)
    ensures exists i :: OneEntry(w.log, op, i) && w.log[i].result == w.operations[op].phase.flight.result
  {
    hide WorldOK, IntentOK, PlanOf, StoreOK, OneEntry, NoEntry, CapturedOK;
    Known(cfg, start, w, op);
    if w.operations[op].phase.landed != Some(Applied) {
      WrongVerdictNeedsTwins(cfg, start, w, op);
    }
  }

  lemma OneEntryExtends(log: seq<Entry>, entry: Entry, op: OperationId, i: int)
    requires OneEntry(log, op, i) && entry.op != op
    ensures OneEntry(log + [entry], op, i) && (log + [entry])[i] == log[i]
  {
  }

  /** This step reports the commit of `op`. */
  predicate ReportedBy(w: World, next: World, op: OperationId)
    requires op in w.operations && op in next.operations
  {
    var before, after := w.operations[op].phase, next.operations[op].phase;
    (before.InFlight? || before.Recovering?) && (ReportedCreated(after) || (after.Finished? && after.outcome.Saved?))
  }

  lemma SavedStaysSaved(cfg: Config, start: Store, w: World, step: Step, op: OperationId)
    requires op in w.operations && SavedOnce(w, op)
    requires Enabled(cfg, w, step) && op in Do(cfg, w, step).operations && !ReportedBy(w, Do(cfg, w, step), op)
    ensures SavedOnce(Do(cfg, w, step), op)
  {
    hide PlanOf, IntentOK, ApplyChange, CommitAllowed, Matches, ReplacesStray;
    var next := Do(cfg, w, step);
    var phase := w.operations[op].phase;
    if step.Land? && step.landing.Applied? && step.op != op {
      if ReportedCreated(phase) {
        var i :| OneEntry(w.log, op, i);
        OneEntryExtends(w.log, next.log[|w.log|], op, i);
      } else if phase.Finished? && phase.outcome.Saved? {
        var i :| OneEntry(w.log, op, i) && w.log[i].result == phase.outcome.result;
        OneEntryExtends(w.log, next.log[|w.log|], op, i);
      }
    }
  }

  lemma NewlySaved(cfg: Config, start: Store, w: World, step: Step, op: OperationId)
    requires op in w.operations && Enabled(cfg, w, step) && op in Do(cfg, w, step).operations
        && ReportedBy(w, Do(cfg, w, step), op)
    requires WorldOK(cfg, start, w) && TimesApart(w)
    ensures SavedOnce(Do(cfg, w, step), op)
  {
    hide PlanOf, IntentOK, OneEntry, WorldOK, TimesApart, Do, Enabled, ReportedBy;
    ReportingStep(cfg, w, step, op);
    SavedStepOK(cfg, start, w, op);
  }

  /** Only an acknowledgement or a recovery that finds the proposal reports a commit. */
  lemma ReportingStep(cfg: Config, w: World, step: Step, op: OperationId)
    requires op in w.operations && Enabled(cfg, w, step) && op in Do(cfg, w, step).operations
        && ReportedBy(w, Do(cfg, w, step), op)
    ensures var phase, next := w.operations[op].phase, Do(cfg, w, step);
      && (phase.InFlight? || phase.Recovering?)
      && (phase.InFlight? ==> phase.landed == Some(Applied))
      && (phase.Recovering? ==> ProposalInPlace(w.store, phase.flight.change))
      && next.log == w.log && next.operations[op].phase == AfterSave(w.operations[op])
  {
    hide PlanOf, IntentOK, CommitAllowed, Matches, ReplacesStray, ProposalInPlace, ExpectationInPlace, ApplyChange;
  }

  lemma OperationsRemain(cfg: Config, w: World, step: Step, op: OperationId)
    requires Enabled(cfg, w, step)
    ensures op in w.operations ==> op in Do(cfg, w, step).operations
    ensures op !in w.operations && op in Do(cfg, w, step).operations ==> SavedOnce(Do(cfg, w, step), op)
  {
    hide PlanOf, IntentOK, CommitAllowed, Matches, ReplacesStray, ProposalInPlace, ExpectationInPlace, ApplyChange;
  }

  lemma StepKeepsRecoveryOK(cfg: Config, start: Store, w: World, step: Step)
    requires Enabled(cfg, w, step)
    requires step.Propose? ==> FreshTime(w, step.stamp.updatedAt)
    requires WorldOK(cfg, start, w) && RecoveryOK(w)
    ensures RecoveryOK(Do(cfg, w, step))
  {
    hide Enabled, Do, WorldOK, TimesApart, SavedOnce, FreshTime, ReportedBy;
    TimesStayApart(cfg, w, step);
    forall op | op in Do(cfg, w, step).operations ensures SavedOnce(Do(cfg, w, step), op) {
      OperationsRemain(cfg, w, step, op);
      if op in w.operations {
        if ReportedBy(w, Do(cfg, w, step), op) {
          NewlySaved(cfg, start, w, step, op);
        } else {
          SavedStaysSaved(cfg, start, w, step, op);
        }
      }
    }
  }

  lemma {:induction false} RunKeepsRecoveryOK(cfg: Config, start: Store, w: World, steps: seq<Step>)
    requires WorldOK(cfg, start, w) && RecoveryOK(w)
    requires Runs(cfg, w, steps) && DistinctTimes(cfg, w, steps)
    ensures RecoveryOK(After(cfg, w, steps))
    decreases |steps|
  {
    hide WorldOK, Enabled, Do, RecoveryOK;
    if steps != [] {
      StepKeepsWorldOK(cfg, start, w, steps[0]);
      StepKeepsRecoveryOK(cfg, start, w, steps[0]);
      RunKeepsRecoveryOK(cfg, start, Do(cfg, w, steps[0]), steps[1..]);
    }
  }

  /**
   Exactly once: when no two transactions carry the same time, every update
   reported as saved is in the history exactly once, and its result is the one
   its intent gives there when all committed intents run one after another.
   */
  lemma SavedExactlyOnce(cfg: Config, start: Store, steps: seq<Step>, op: OperationId)
    requires RunFrom(cfg, start, steps) && DistinctTimes(cfg, Initial(start), steps)
    requires var w := Reached(cfg, start, steps);
      op in w.operations && w.operations[op].phase.Finished? && w.operations[op].phase.outcome.Saved?
    ensures var w := Reached(cfg, start, steps);
      && IntentsOK(cfg, w.log)
      && exists i :: OneEntry(w.log, op, i)
           && SerialStep(cfg, SerialDocuments(cfg, DocumentsOf(start), w.log, i), w.log[i].intent).1
               == w.operations[op].phase.outcome.result
  {
    hide StoreOK, ValidConfig, IntentOK, SerialStep, SerialDocuments, DocumentsOf, Runs, WorldOK;
    InitialOK(cfg, start);
    RunKeepsRecoveryOK(cfg, start, Initial(start), steps);
    Serialisable(cfg, start, steps);
    var w := Reached(cfg, start, steps);
    assert SavedOnce(w, op);
    var i :| OneEntry(w.log, op, i) && w.log[i].result == w.operations[op].phase.outcome.result;
    assert SerialStep(cfg, SerialDocuments(cfg, DocumentsOf(start), w.log, i), w.log[i].intent).1 == w.log[i].result;
  }

  // ---------- Two commits under way ----------

  /** `steps` can be taken from `w` and leads to `next`. */
  ghost predicate Leads(cfg: Config, w: World, steps: seq<Step>, next: World)
  {
    Runs(cfg, w, steps) && After(cfg, w, steps) == next
  }

  lemma {:induction false} LeadsOn(cfg: Config, w: World, steps: seq<Step>, mid: World, step: Step, next: World)
    requires Leads(cfg, w, steps, mid) && Enabled(cfg, mid, step) && Do(cfg, mid, step) == next
    ensures Leads(cfg, w, steps + [step], next)
    decreases |steps|
  {
    hide Enabled, Do;
    if steps == [] {
      assert steps + [step] == [step] && [step][1..] == [];
      assert Leads(cfg, next, [], next);
    } else {
      LeadsOn(cfg, Do(cfg, w, steps[0]), steps[1..], mid, step, next);
      assert (steps + [step])[0] == steps[0] && (steps + [step])[1..] == steps[1..] + [step];
    }
  }

  /** Two operations with the same intent, in given phases. */
  function Pair(store: Store, log: seq<Entry>, states: map<ProviderId, CommitState>, intent: Intent, p: ProviderId,
                q: ProviderId, a: Phase, b: Phase): World
  {
    World(store, log, states, map[0 := Operation(p, intent, 0, a), 1 := Operation(q, intent, 0, b)])
  }

  function FlightFrom(cfg: Config, start: Store, intent: Intent, stamp: Stamp): Flight
    requires IntentOK(cfg, intent) && PlanOf(cfg, intent, SeenIn(start, intent.collections), stamp).Proceed?
  {
    var plan := PlanOf(cfg, intent, SeenIn(start, intent.collections), stamp);
    Flight(1, 0, SeenIn(start, intent.collections), stamp, plan.change, plan.result)
  }

  /** Both operations of a pair captured the starting store. */
  lemma BothCapture(cfg: Config, start: Store, intent: Intent, p: ProviderId, q: ProviderId) returns (steps: seq<Step>)
    requires IntentOK(cfg, intent) && intent.Update? && AllHeld(start, intent.collections)
    ensures var captured := Captured(1, 0, SeenIn(start, intent.collections));
      Leads(cfg, Initial(start), steps, Pair(start, [], map[], intent, p, q, captured, captured))
  {
    hide IntentOK, Leads;
    var seen := SeenIn(start, intent.collections);
    assert SeenExcept(start, intent.collections, {}) == seen;
    var alone := World(start, [], map[], map[0 := Operation(p, intent, 0, Idle(1))]);
    var w0 := Pair(start, [], map[], intent, p, q, Idle(1), Idle(1));
    var w1 := Pair(start, [], map[], intent, p, q, Captured(1, 0, seen), Idle(1));
    var w2 := Pair(start, [], map[], intent, p, q, Captured(1, 0, seen), Captured(1, 0, seen));
    Nothing(cfg, Initial(start));
    LeadsOn(cfg, Initial(start), [], Initial(start), Begin(0, p, intent), alone);
    steps := [] + [Begin(0, p, intent)];
    LeadsOn(cfg, Initial(start), steps, alone, Begin(1, q, intent), w0);
    steps := steps + [Begin(1, q, intent)];
    LeadsOn(cfg, Initial(start), steps, w0, Capture(0), w1);
    steps := steps + [Capture(0)];
    LeadsOn(cfg, Initial(start), steps, w1, Capture(1), w2);
    steps := steps + [Capture(1)];
  }

  /** Both planned a change from it. */
  ghost predicate BothPlan(cfg: Config, start: Store, intent: Intent, s: Stamp, t: Stamp)
  {
    && IntentOK(cfg, intent) && intent.Update? && AllHeld(start, intent.collections)
    && PlanOf(cfg, intent, SeenIn(start, intent.collections), s).Proceed?
    && PlanOf(cfg, intent, SeenIn(start, intent.collections), t).Proceed?
  }

  lemma BothTakeOff(cfg: Config, start: Store, intent: Intent, s: Stamp, t: Stamp, p: ProviderId, q: ProviderId)
    returns (steps: seq<Step>)
    requires BothPlan(cfg, start, intent, s, t)
    ensures var f, g := FlightFrom(cfg, start, intent, s), FlightFrom(cfg, start, intent, t);
      Leads(cfg, Initial(start), steps, Pair(start, [], map[], intent, p, q, InFlight(f, None), InFlight(g, None)))
  {
    hide PlanOf, IntentOK, Leads;
    var f, g := FlightFrom(cfg, start, intent, s), FlightFrom(cfg, start, intent, t);
    var captured := Captured(1, 0, SeenIn(start, intent.collections));
    var w0 := Pair(start, [], map[], intent, p, q, captured, captured);
    var w1 := Pair(start, [], map[], intent, p, q, InFlight(f, None), captured);
    var w2 := Pair(start, [], map[], intent, p, q, InFlight(f, None), InFlight(g, None));
    steps := BothCapture(cfg, start, intent, p, q);
    LeadsOn(cfg, Initial(start), steps, w0, Propose(0, s), w1);
    steps := steps + [Propose(0, s)];
    LeadsOn(cfg, Initial(start), steps, w1, Propose(1, t), w2);
    steps := steps + [Propose(1, t)];
  }

  lemma Nothing(cfg: Config, w: World)
    ensures Leads(cfg, w, [], w)
  {
  }

  /** The second operation of a pair loses its transaction and times out. */
  lemma SecondTimesOut(cfg: Config, start: Store, intent: Intent, s: Stamp, t: Stamp) returns (steps: seq<Step>)
    requires BothPlan(cfg, start, intent, s, t)
    ensures var f, g := FlightFrom(cfg, start, intent, s), FlightFrom(cfg, start, intent, t);
      Leads(cfg, Initial(start), steps,
            Pair(start, [], map[1 := Reconciling], intent, 0, 1, InFlight(f, None),
                 Recovering(g, Some(NotApplied(WriteFailed)))))
  {
    hide PlanOf, IntentOK, Leads;
    var f, g := FlightFrom(cfg, start, intent, s), FlightFrom(cfg, start, intent, t);
    var lost := Some(NotApplied(WriteFailed));
    var w0 := Pair(start, [], map[], intent, 0, 1, InFlight(f, None), InFlight(g, None));
    var w1 := Pair(start, [], map[], intent, 0, 1, InFlight(f, None), InFlight(g, lost));
    var w2 := Pair(start, [], map[1 := Reconciling], intent, 0, 1, InFlight(f, None), Recovering(g, lost));
    steps := BothTakeOff(cfg, start, intent, s, t, 0, 1);
    LeadsOn(cfg, Initial(start), steps, w0, Land(1, lost.value), w1);
    steps := steps + [Land(1, lost.value)];
    LeadsOn(cfg, Initial(start), steps, w1, TimeOut(1), w2);
    steps := steps + [TimeOut(1)];
  }

  /** Meanwhile the first operation's transaction takes effect. */
  lemma FirstLands(cfg: Config, start: Store, intent: Intent, s: Stamp, t: Stamp) returns (steps: seq<Step>)
    requires BothPlan(cfg, start, intent, s, t)
    ensures var f, g := FlightFrom(cfg, start, intent, s), FlightFrom(cfg, start, intent, t);
      Leads(cfg, Initial(start), steps,
            Pair(ApplyChange(start, f.change), [Entry(0, intent, s, f.change, f.result)], map[1 := Reconciling],
                 intent, 0, 1,
                 InFlight(f, Some(Applied)), Recovering(g, Some(NotApplied(WriteFailed)))))
  {
    hide PlanOf, IntentOK, Leads, ApplyChange, CommitAllowed;
    var f, g := FlightFrom(cfg, start, intent, s), FlightFrom(cfg, start, intent, t);
    var adrift := Recovering(g, Some(NotApplied(WriteFailed)));
    var w2 := Pair(start, [], map[1 := Reconciling], intent, 0, 1, InFlight(f, None), adrift);
    var w3 := Pair(ApplyChange(start, f.change), [Entry(0, intent, s, f.change, f.result)], map[1 := Reconciling],
                   intent, 0, 1,
                   InFlight(f, Some(Applied)), adrift);
    steps := SecondTimesOut(cfg, start, intent, s, t);
    FreshPlanIsAllowed(cfg, start, intent, s);
    LeadsOn(cfg, Initial(start), steps, w2, Land(0, Applied), w3);
    steps := steps + [Land(0, Applied)];
  }

  /** And it reports its commit. */
  lemma FirstCommits(cfg: Config, start: Store, intent: Intent, s: Stamp, t: Stamp) returns (steps: seq<Step>)
    requires BothPlan(cfg, start, intent, s, t)
    ensures var f, g := FlightFrom(cfg, start, intent, s), FlightFrom(cfg, start, intent, t);
      Leads(cfg, Initial(start), steps,
            Pair(ApplyChange(start, f.change), [Entry(0, intent, s, f.change, f.result)], map[1 := Reconciling],
                 intent, 0, 1,
                 Finished(Saved(f.result)), Recovering(g, Some(NotApplied(WriteFailed)))))
  {
    hide PlanOf, IntentOK, Leads, ApplyChange;
    var f, g := FlightFrom(cfg, start, intent, s), FlightFrom(cfg, start, intent, t);
    var adrift := Recovering(g, Some(NotApplied(WriteFailed)));
    var next, log := ApplyChange(start, f.change), [Entry(0, intent, s, f.change, f.result)];
    var w3 := Pair(next, log, map[1 := Reconciling], intent, 0, 1, InFlight(f, Some(Applied)), adrift);
    var w4 := Pair(next, log, map[1 := Reconciling], intent, 0, 1, Finished(Saved(f.result)), adrift);
    steps := FirstLands(cfg, start, intent, s, t);
    LeadsOn(cfg, Initial(start), steps, w3, Acknowledge(0), w4);
    steps := steps + [Acknowledge(0)];
  }

  /**
   Without distinct times the guarantee fails for every update that changes
   anything under a codec that draws no nonces: two tabs run it from the same
   state at the same time, one transaction is lost and times out, and its tab
   finds the other's equal manifest and reports success. Both tabs report a save;
   one commit happened.
   */
  lemma EqualTimesLoseAnUpdate(cfg: Config, start: Store, intent: Intent, s: Stamp, t: Stamp)
    returns (steps: seq<Step>, w: World)
    requires BothPlan(cfg, start, intent, s, t)
    requires NonceFree(cfg.codec) && s.updatedAt == t.updatedAt
    ensures var plan := PlanOf(cfg, intent, SeenIn(start, intent.collections), s);
      && Leads(cfg, Initial(start), steps, w)
      && 0 in w.operations && w.operations[0].phase == Finished(Saved(plan.result))
      && 1 in w.operations && w.operations[1].phase == Finished(Saved(plan.result))
      && NoEntry(w.log, 1) && |w.log| == 1 && w.store == ApplyChange(start, plan.change)
  {
    hide PlanOf, IntentOK, Leads, ApplyChange, ProposalInPlace, NonceFree;
    var f, g := FlightFrom(cfg, start, intent, s), FlightFrom(cfg, start, intent, t);
    PlanIgnoresNonces(cfg, intent, SeenIn(start, intent.collections), s, t);
    var next, log := ApplyChange(start, f.change), [Entry(0, intent, s, f.change, f.result)];
    var saved := Finished(Saved(f.result));
    var w4 := Pair(next, log, map[1 := Reconciling], intent, 0, 1, saved, Recovering(g, Some(NotApplied(WriteFailed))));
    w := Pair(next, log, map[1 := Confirmed], intent, 0, 1, saved, saved);
    steps := FirstCommits(cfg, start, intent, s, t);
    AppliedIsInPlace(start, f.change);
    LeadsOn(cfg, Initial(start), steps, w4, Reconcile(1, true), w);
    steps := steps + [Reconcile(1, true)];
  }

  // ---------- Codecs without nonces ----------

  /** As the plaintext codec: what is stored depends on the record alone. */
  ghost predicate NonceFree(codec: Codec)
  {
    forall input: EncodeInput, nonce: nat :: codec.encode(input.(nonce := nonce)) == codec.encode(input)
  }

  lemma RecordIgnoresNonce(definition: Definition, codec: Codec, record: LocalRecord, ordinal: nat, m: nat, n: nat)
    requires NonceFree(codec)
    ensures RecordStorable(definition, codec, record, m) <==> RecordStorable(definition, codec, record, n)
    ensures RecordStorable(definition, codec, record, m) ==>
      StoredForm(definition, codec, record, ordinal, m) == StoredForm(definition, codec, record, ordinal, n)
  {
    assert RecordInput(definition, record, m) == RecordInput(definition, record, n).(nonce := m);
  }

  lemma PreparedIgnoresNonces(definition: Definition, codec: Codec, input: Json, ms: nat -> nat, ns: nat -> nat)
    requires NonceFree(codec)
    ensures Prepared(definition, codec, input, ms) == Prepared(definition, codec, input, ns)
  {
    hide RecordStorable, StoredForm, NonceFree, DistinctIdentifiers, DistinctLookupKeys, IsDigest, TotalBytes,
        ByteLength;
    if definition.normalize(input).Some? {
      var records := definition.records(definition.normalize(input).value);
      forall i | 0 <= i < |records|
        ensures RecordStorable(definition, codec, records[i], ms(i)) <==>
          RecordStorable(definition, codec, records[i], ns(i))
        ensures RecordStorable(definition, codec, records[i], ms(i)) ==>
          StoredForm(definition, codec, records[i], i, ms(i)) == StoredForm(definition, codec, records[i], i, ns(i))
      {
        RecordIgnoresNonce(definition, codec, records[i], i, ms(i), ns(i));
      }
      if AllStorable(definition, codec, records, ms) {
        assert StoredForms(definition, codec, records, ms) == StoredForms(definition, codec, records, ns);
      }
    }
  }

  lemma DraftIgnoresNonces(cfg: Config, intent: Intent, c: Text, seen: Seen, output: Json, s: Stamp, t: Stamp)
    requires IntentOK(cfg, intent) && c in intent.collections
    requires NonceFree(cfg.codec) && s.updatedAt == t.updatedAt
    ensures DraftOf(cfg, intent, c, seen, output, s) == DraftOf(cfg, intent, c, seen, output, t)
  {
    hide Prepared, NonceFree, FileKeys, Dropped, ManifestReadable, ContentMatches, SameDocument;
    forall input: Json
      ensures Prepared(cfg.definitions[c], cfg.codec, input, NoncesFor(s, c))
          == Prepared(cfg.definitions[c], cfg.codec, input, NoncesFor(t, c))
    {
      PreparedIgnoresNonces(cfg.definitions[c], cfg.codec, input, NoncesFor(s, c), NoncesFor(t, c));
    }
  }

  /** Under such a codec two attempts at one time plan the same change. */
  lemma PlanIgnoresNonces(cfg: Config, intent: Intent, seen: map<Text, Seen>, s: Stamp, t: Stamp)
    requires IntentOK(cfg, intent) && seen.Keys == intent.collections
    requires NonceFree(cfg.codec) && s.updatedAt == t.updatedAt
    ensures PlanOf(cfg, intent, seen, s) == PlanOf(cfg, intent, seen, t)
  {
    hide DraftOf, NonceFree, IntentOK;
    var answer := AnswerOf(intent, seen);
    if answer.Some? {
      var outputs := answer.value.0;
      forall c | c in intent.collections
        ensures DraftOf(cfg, intent, c, seen[c], outputs[c], s) == DraftOf(cfg, intent, c, seen[c], outputs[c], t)
      {
        DraftIgnoresNonces(cfg, intent, c, seen[c], outputs[c], s, t);
      }
      assert DraftsOf(cfg, intent, seen, outputs, s) == DraftsOf(cfg, intent, seen, outputs, t);
    }
  }

  lemma FreshPlanIsAllowed(cfg: Config, start: Store, intent: Intent, stamp: Stamp)
    requires IntentOK(cfg, intent) && intent.Update? && AllHeld(start, intent.collections)
    requires PlanOf(cfg, intent, SeenIn(start, intent.collections), stamp).Proceed?
    ensures CommitAllowed(start, PlanOf(cfg, intent, SeenIn(start, intent.collections), stamp).change)
  {
    hide PlanOf;
    PlanShape(cfg, intent, SeenIn(start, intent.collections), stamp);
  }

  lemma AppliedIsInPlace(store: Store, change: Change)
    ensures ProposalInPlace(ApplyChange(store, change), change)
  {
  }

  // ---------- The unknown state ----------

  /** No commit of the provider is under way. */
  ghost predicate Quiet(w: World, p: ProviderId)
  {
    forall op :: op in w.operations && w.operations[op].provider == p ==> !Flying(w.operations[op].phase)
  }

  ghost predicate NeverCloses(steps: seq<Step>, p: ProviderId)
  {
    forall i :: 0 <= i < |steps| ==> steps[i] != Close(p)
  }

  lemma QuietUnknownStep(cfg: Config, w: World, step: Step, p: ProviderId)
    requires Enabled(cfg, w, step) && step != Close(p)
    requires StateOf(w, p) == Unknown && Quiet(w, p)
    ensures StateOf(Do(cfg, w, step), p) == Unknown && Quiet(Do(cfg, w, step), p)
  {
    hide PlanOf, IntentOK, CommitAllowed, Matches, ReplacesStray, ProposalInPlace, ExpectationInPlace, ApplyChange,
        SeenExcept,
         AfterVerify, UpgradeBegun, Outdated;
  }

  lemma QuietStepCommitsNothing(cfg: Config, w: World, step: Step, p: ProviderId)
    requires Enabled(cfg, w, step) && step != Close(p)
    requires Quiet(w, p)
    ensures forall op :: op in w.operations ==>
      op in Do(cfg, w, step).operations && Do(cfg, w, step).operations[op].provider == w.operations[op].provider
    ensures Do(cfg, w, step).log == w.log ||
      (step.Land? && w.operations[step.op].provider != p && |Do(cfg, w, step).log| == |w.log| + 1
       && Do(cfg, w, step).log[..|w.log|] == w.log
       && Do(cfg, w, step).log[|w.log|].op == step.op)
  {
    hide PlanOf, IntentOK, CommitAllowed, Matches, ReplacesStray, ProposalInPlace, ExpectationInPlace, ApplyChange,
        SeenExcept,
         AfterSurvey, AfterVerify, UpgradeBegun, Outdated;
  }

  /** Entries of the history after position `n` belong to operations of other providers. */
  ghost predicate OthersOnly(w: World, n: nat, p: ProviderId)
  {
    n <= |w.log| && forall i :: n <= i < |w.log| ==>
      w.log[i].op in w.operations && w.operations[w.log[i].op].provider != p
  }

  /**
   Once a provider's outcome is unknown and none of its commits is under way, it
   stays unknown, and it commits nothing more, until it is closed.
   */
  lemma {:induction false} UnknownBlocksUntilClosed(cfg: Config, w: World, steps: seq<Step>, p: ProviderId, n: nat)
    requires Runs(cfg, w, steps) && NeverCloses(steps, p)
    requires StateOf(w, p) == Unknown && Quiet(w, p) && OthersOnly(w, n, p)
    ensures var next := After(cfg, w, steps); StateOf(next, p) == Unknown && Quiet(next, p) && OthersOnly(next, n, p)
    decreases |steps|
  {
    hide Enabled, Do, Quiet;
    if steps != [] {
      var next := Do(cfg, w, steps[0]);
      QuietUnknownStep(cfg, w, steps[0], p);
      assert OthersOnly(next, n, p) by { StillOthersOnly(cfg, w, steps[0], p, n); }
      UnknownBlocksUntilClosed(cfg, next, steps[1..], p, n);
    }
  }

  lemma StillOthersOnly(cfg: Config, w: World, step: Step, p: ProviderId, n: nat)
    requires Enabled(cfg, w, step) && step != Close(p)
    requires StateOf(w, p) == Unknown && Quiet(w, p) && OthersOnly(w, n, p)
    ensures OthersOnly(Do(cfg, w, step), n, p)
  {
    hide Enabled, Do, Quiet;
    QuietStepCommitsNothing(cfg, w, step, p);
    var next := Do(cfg, w, step);
    forall i | n <= i < |next.log|
        ensures next.log[i].op in next.operations && next.operations[next.log[i].op].provider != p {
      if i < |w.log| {
        assert next.log[i] == w.log[i];
      } else {
        LanderIsKnown(cfg, w, step);
      }
    }
  }

  lemma LanderIsKnown(cfg: Config, w: World, step: Step)
    requires Enabled(cfg, w, step) && step.Land?
    ensures step.op in w.operations
  {
  }

  /** Both commits of one provider are lost. */
  lemma BothAreLost(cfg: Config, start: Store, intent: Intent, stamp: Stamp) returns (steps: seq<Step>)
    requires IntentOK(cfg, intent) && intent.Update? && AllHeld(start, intent.collections)
    requires PlanOf(cfg, intent, SeenIn(start, intent.collections), stamp).Proceed?
    ensures var lost := InFlight(FlightFrom(cfg, start, intent, stamp), Some(NotApplied(WriteFailed)));
      Leads(cfg, Initial(start), steps, Pair(start, [], map[], intent, 0, 0, lost, lost))
  {
    hide PlanOf, IntentOK, Leads;
    var flight := FlightFrom(cfg, start, intent, stamp);
    var lost := Some(NotApplied(WriteFailed));
    var w0 := Pair(start, [], map[], intent, 0, 0, InFlight(flight, None), InFlight(flight, None));
    var w1 := Pair(start, [], map[], intent, 0, 0, InFlight(flight, lost), InFlight(flight, None));
    var w2 := Pair(start, [], map[], intent, 0, 0, InFlight(flight, lost), InFlight(flight, lost));
    steps := BothTakeOff(cfg, start, intent, stamp, stamp, 0, 0);
    LeadsOn(cfg, Initial(start), steps, w0, Land(0, lost.value), w1);
    steps := steps + [Land(0, lost.value)];
    LeadsOn(cfg, Initial(start), steps, w1, Land(1, lost.value), w2);
    steps := steps + [Land(1, lost.value)];
  }

  /** And both time out. */
  lemma BothTimeOut(cfg: Config, start: Store, intent: Intent, stamp: Stamp) returns (steps: seq<Step>)
    requires IntentOK(cfg, intent) && intent.Update? && AllHeld(start, intent.collections)
    requires PlanOf(cfg, intent, SeenIn(start, intent.collections), stamp).Proceed?
    ensures var adrift := Recovering(FlightFrom(cfg, start, intent, stamp), Some(NotApplied(WriteFailed)));
      Leads(cfg, Initial(start), steps, Pair(start, [], map[0 := Reconciling], intent, 0, 0, adrift, adrift))
  {
    hide PlanOf, IntentOK, Leads;
    var flight := FlightFrom(cfg, start, intent, stamp);
    var lost := Some(NotApplied(WriteFailed));
    var adrift := Recovering(flight, lost);
    var w2 := Pair(start, [], map[], intent, 0, 0, InFlight(flight, lost), InFlight(flight, lost));
    var w3 := Pair(start, [], map[0 := Reconciling], intent, 0, 0, adrift, InFlight(flight, lost));
    var w4 := Pair(start, [], map[0 := Reconciling], intent, 0, 0, adrift, adrift);
    steps := BothAreLost(cfg, start, intent, stamp);
    LeadsOn(cfg, Initial(start), steps, w2, TimeOut(0), w3);
    steps := steps + [TimeOut(0)];
    LeadsOn(cfg, Initial(start), steps, w3, TimeOut(1), w4);
    steps := steps + [TimeOut(1)];
  }

  /**
   The quiet condition is needed: with two commits of one provider under way, the
   second recovery overwrites the first one's unknown outcome, and the provider
   accepts writes again although nothing was closed.
   */
  lemma SecondRecoveryReopens(cfg: Config, start: Store, intent: Intent, stamp: Stamp)
    returns (before: seq<Step>, after: seq<Step>, u: World, w: World)
    requires IntentOK(cfg, intent) && intent.Update? && AllHeld(start, intent.collections)
    requires PlanOf(cfg, intent, SeenIn(start, intent.collections), stamp).Proceed?
    ensures Leads(cfg, Initial(start), before, u) && StateOf(u, 0) == Unknown && 0 in u.operations
        && u.operations[0].phase == Finished(Failed(CommitUnknown))
    ensures Leads(cfg, u, after, w) && NeverCloses(after, 0) && StateOf(w, 0) == Confirmed
  {
    hide PlanOf, IntentOK, Leads;
    var flight := FlightFrom(cfg, start, intent, stamp);
    var lost := Some(NotApplied(WriteFailed));
    var adrift := Recovering(flight, lost);
    var w4 := Pair(start, [], map[0 := Reconciling], intent, 0, 0, adrift, adrift);
    var w5 := Pair(start, [], map[0 := Reconciling], intent, 0, 0, Rereading(flight, lost), adrift);
    u := Pair(start, [], map[0 := Unknown], intent, 0, 0, Finished(Failed(CommitUnknown)), adrift);
    before := BothTimeOut(cfg, start, intent, stamp);
    LeadsOn(cfg, Initial(start), before, w4, Reconcile(0, false), w5);
    before := before + [Reconcile(0, false)];
    LeadsOn(cfg, Initial(start), before, w5, Settle(0, false), u);
    before := before + [Settle(0, false)];
    after, w := SecondRecovery(cfg, start, intent, stamp, u);
  }

  lemma SecondRecovery(cfg: Config, start: Store, intent: Intent, stamp: Stamp, u: World)
    returns (after: seq<Step>, w: World)
    requires IntentOK(cfg, intent) && intent.Update? && AllHeld(start, intent.collections)
    requires PlanOf(cfg, intent, SeenIn(start, intent.collections), stamp).Proceed?
    requires var flight := FlightFrom(cfg, start, intent, stamp);
      u == Pair(start, [], map[0 := Unknown], intent, 0, 0, Finished(Failed(CommitUnknown)),
                Recovering(flight, Some(NotApplied(WriteFailed))))
    ensures Leads(cfg, u, after, w) && NeverCloses(after, 0) && StateOf(w, 0) == Confirmed
  {
    hide PlanOf, IntentOK, Leads, ExpectationInPlace;
    var flight := FlightFrom(cfg, start, intent, stamp);
    var settling := Rereading(flight, Some(NotApplied(WriteFailed)));
    var v := Pair(start, [], map[0 := Unknown], intent, 0, 0, Finished(Failed(CommitUnknown)), settling);
    w := Pair(start, [], map[0 := Confirmed], intent, 0, 0, Finished(Failed(CommitUnknown)),
              Finished(Failed(TimedOut)));
    FreshExpectationHolds(cfg, start, intent, stamp);
    Nothing(cfg, u);
    LeadsOn(cfg, u, [], u, Reconcile(1, false), v);
    LeadsOn(cfg, u, [] + [Reconcile(1, false)], v, Settle(1, true), w);
    after := [] + [Reconcile(1, false)] + [Settle(1, true)];
  }

  lemma FreshExpectationHolds(cfg: Config, start: Store, intent: Intent, stamp: Stamp)
    requires IntentOK(cfg, intent) && intent.Update? && AllHeld(start, intent.collections)
    requires PlanOf(cfg, intent, SeenIn(start, intent.collections), stamp).Proceed?
    ensures ExpectationInPlace(start, PlanOf(cfg, intent, SeenIn(start, intent.collections), stamp).change)
  {
    hide PlanOf;
    PlanShape(cfg, intent, SeenIn(start, intent.collections), stamp);
  }
}

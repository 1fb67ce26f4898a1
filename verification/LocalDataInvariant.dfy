/**
 The inductive invariant of the protocol: what every reachable world says about
 each operation, whichever steps the other operations take.
 */
module LocalDataInvariant {
  import opened Basics
  import opened LocalDataContent
  import opened CommitPlan
  import opened CommitPlanLaws
  import opened LocalDataProtocol
  import opened CommitLog

  // ---------- Entries of one operation ----------

  ghost predicate NoEntry(log: seq<Entry>, op: OperationId)
  {
    forall i :: 0 <= i < |log| ==> log[i].op != op
  }

  ghost predicate OneEntry(log: seq<Entry>, op: OperationId, i: int)
  {
    0 <= i < |log| && log[i].op == op && forall j :: 0 <= j < |log| && j != i ==> log[j].op != op
  }

  ghost predicate AtMostOneEntry(log: seq<Entry>, op: OperationId)
  {
    NoEntry(log, op) || exists i :: OneEntry(log, op, i)
  }

  // ---------- Operations ----------

  /**
   The snapshot is what the store held after `at` commits; a collection seen
   absent may have been looked up earlier.
   */
  ghost predicate CapturedOK(start: Store, log: seq<Entry>, started: nat, intent: Intent, attempt: nat, at: nat,
                             seen: map<Text, Seen>)
  {
    && started <= at <= |log| && 1 <= attempt <= MAX_UPDATE_ATTEMPTS
    && seen.Keys == intent.collections
    && (forall c :: c in seen && seen[c].Present? ==> SeenAt(StoreAfter(start, log, at), c) == seen[c])
    && (forall c :: c in seen && seen[c].Absent? ==> MissingAt(start, log, started, intent, c))
    && (!intent.Create? ==> Rivals(log, started, at, intent.collections) >= attempt - 1)
  }

  /** A collection to be created was not there when the call began, and may be created. */
  ghost predicate MissingAt(start: Store, log: seq<Entry>, started: nat, intent: Intent, c: Text)
    requires started <= |log|
  {
    intent.Create? && MayCreate(intent, c) && c !in StoreAfter(start, log, started).held
  }

  ghost predicate FlightOK(cfg: Config, start: Store, log: seq<Entry>, started: nat, intent: Intent, flight: Flight)
    requires IntentOK(cfg, intent)
  {
    && CapturedOK(start, log, started, intent, flight.attempt, flight.at, flight.seen)
    && PlanOf(cfg, intent, flight.seen, flight.stamp) == Proceed(flight.change, flight.result)
  }

  /** Applied exactly when the history holds this very change, once, after its snapshot. */
  ghost predicate LandedOK(log: seq<Entry>, op: OperationId, started: nat, intent: Intent, flight: Flight,
                           landed: Option<Landing>)
  {
    && (landed == Some(Applied) ==>
          exists i :: flight.at <= i && OneEntry(log, op, i)
              && log[i] == Entry(op, intent, flight.stamp, flight.change, flight.result))
    && (landed != Some(Applied) ==> NoEntry(log, op))
    && (landed.Some? && landed.value.NotApplied? ==>
        landed.value.code in {Conflict, Integrity, CommitUnknown, WriteFailed})
    && (landed == Some(NotApplied(Conflict)) && !intent.Create? ==>
          Rivals(log, started, |log|, intent.collections) >= flight.attempt)
  }

  ghost predicate OutcomeOK(cfg: Config, start: Store, log: seq<Entry>, op: OperationId, started: nat, intent: Intent,
                            outcome: Outcome)
    requires IntentOK(cfg, intent)
  {
    match outcome
    case Unchanged(result, at) =>
      && NoEntry(log, op) && intent.Update? && started <= at <= |log|
      && exists stamp ::
          PlanOf(cfg, intent, SeenIn(StoreAfter(start, log, at), intent.collections), stamp) == Keep(result)
    case Saved(result) =>
      && !intent.Create?
      && (NoEntry(log, op) || exists i :: OneEntry(log, op, i) && log[i].result == result)
      && (intent.Upgrade? ==> AllCurrent(cfg, StoreAfter(start, log, |log|), intent.collections))
    case Ready(at, seen, created) =>
      && AtMostOneEntry(log, op) && intent.Create? && started <= at <= |log|
      && seen == SeenIn(StoreAfter(start, log, at), intent.collections)
      && AllHeld(StoreAfter(start, log, at), intent.collections)
      && (!created ==> NoEntry(log, op))
      && forall i :: 0 <= i < |log| && log[i].op == op ==> i < at
    case Failed(code) =>
      && (if code == CommitUnknown then AtMostOneEntry(log, op) else NoEntry(log, op))
      && (code == Conflict ==>
            !intent.Create? && Rivals(log, started, |log|, intent.collections) >= AttemptsOf(intent))
    case Unverified(code, created) =>
      && AtMostOneEntry(log, op) && intent.Create? && code in {TimedOut, ReadFailed, UnusableCodec, Missing}
      && (!created ==> NoEntry(log, op)) && (code == Missing ==> !created)
  }

  /** How often an intent is tried before a conflict is reported. */
  function AttemptsOf(intent: Intent): nat
  {
    if intent.Update? then MAX_UPDATE_ATTEMPTS else 1
  }

  /** Every one of these collections is stored in its current schema version. */
  ghost predicate AllCurrent(cfg: Config, store: Store, collections: set<Text>)
  {
    forall c :: c in collections ==> Current(cfg, store, c)
  }

  ghost predicate Current(cfg: Config, store: Store, c: Text)
  {
    c in cfg.definitions && c in store.held && store.held[c].manifest.schemaVersion == cfg.definitions[c].schemaVersion
  }

  ghost predicate PhaseOK(cfg: Config, start: Store, log: seq<Entry>, op: OperationId, operation: Operation)
    requires IntentOK(cfg, operation.intent) && operation.started <= |log|
  {
    match operation.phase
    case Idle(attempt) =>
      && NoEntry(log, op) && 1 <= attempt <= MAX_UPDATE_ATTEMPTS
      && (!operation.intent.Create? ==>
          Rivals(log, operation.started, |log|, operation.intent.collections) >= attempt - 1)
    case Surveyed(missing) =>
      && NoEntry(log, op) && operation.intent.Create?
      && forall c :: c in missing ==> MissingAt(start, log, operation.started, operation.intent, c)
    case Captured(attempt, at, seen) =>
        NoEntry(log, op) && CapturedOK(start, log, operation.started, operation.intent, attempt, at, seen)
    case InFlight(flight, landed) =>
      && FlightOK(cfg, start, log, operation.started, operation.intent, flight)
      && LandedOK(log, op, operation.started, operation.intent, flight, landed)
    case Recovering(flight, landed) =>
      && FlightOK(cfg, start, log, operation.started, operation.intent, flight)
      && LandedOK(log, op, operation.started, operation.intent, flight, landed)
    case Rereading(flight, landed) =>
      && FlightOK(cfg, start, log, operation.started, operation.intent, flight)
      && LandedOK(log, op, operation.started, operation.intent, flight, landed) && landed.Some?
    case Verifying(created) =>
      && operation.intent.Create? && AtMostOneEntry(log, op)
      && (if created then AllHeld(StoreAfter(start, log, |log|), operation.intent.collections) else NoEntry(log, op))
    case Finished(outcome) => OutcomeOK(cfg, start, log, op, operation.started, operation.intent, outcome)
  }

  ghost predicate OperationOK(cfg: Config, start: Store, log: seq<Entry>, op: OperationId, operation: Operation)
  {
    IntentOK(cfg, operation.intent) && operation.started <= |log| && PhaseOK(cfg, start, log, op, operation)
  }

  ghost predicate HistoryOK(cfg: Config, start: Store, w: World)
  {
    && ValidConfig(cfg) && StoreOK(cfg, start) && LogOK(cfg, start, w.log)
    && w.store == StoreAfter(start, w.log, |w.log|)
    && (forall i :: 0 <= i < |w.log| ==>
        w.log[i].op in w.operations && w.log[i].intent == w.operations[w.log[i].op].intent)
    && (forall i :: 0 <= i < |w.log| ==> Permitted(w.log[i]))
  }

  /** A creating transaction writes only collections it may create. */
  ghost predicate Permitted(entry: Entry)
  {
    entry.intent.Create? ==> forall c :: c in entry.change.writes ==> MayCreate(entry.intent, c)
  }

  ghost predicate WorldOK(cfg: Config, start: Store, w: World)
  {
    HistoryOK(cfg, start, w) && forall op :: op in w.operations ==> OperationOK(cfg, start, w.log, op, w.operations[op])
  }

  lemma InitialOK(cfg: Config, start: Store)
    requires ValidConfig(cfg) && StoreOK(cfg, start)
    ensures WorldOK(cfg, start, Initial(start))
  {
  }

  // ---------- What a step of one operation leaves alone ----------

  lemma MovingOneOperation(cfg: Config, start: Store, w: World, op: OperationId, phase: Phase, state: CommitState)
    requires WorldOK(cfg, start, w) && op in w.operations
    requires w.operations[op].started <= |w.log| && PhaseOK(cfg, start, w.log, op, w.operations[op].(phase := phase))
    ensures WorldOK(cfg, start, Moved(w, op, phase))
    ensures WorldOK(cfg, start, MovedTo(w, op, phase, state))
  {
    hide LogOK, PhaseOK, StoreOK, ValidConfig, IntentOK;
  }

  lemma CapturedOKExtends(start: Store, log: seq<Entry>, entry: Entry, started: nat, intent: Intent, attempt: nat,
                          at: nat, seen: map<Text, Seen>)
    requires CapturedOK(start, log, started, intent, attempt, at, seen)
    ensures CapturedOK(start, log + [entry], started, intent, attempt, at, seen)
  {
    StoreAfterPrefix(start, log, entry, at);
    StoreAfterPrefix(start, log, entry, started);
    RivalsPrefix(log, entry, started, at, intent.collections);
  }

  lemma RivalsKept(log: seq<Entry>, entry: Entry, started: nat, collections: set<Text>)
    ensures Rivals(log + [entry], started, |log| + 1, collections) >= Rivals(log, started, |log|, collections)
  {
    RivalsPrefix(log, entry, started, |log|, collections);
  }

  lemma EntriesKept(log: seq<Entry>, entry: Entry, op: OperationId)
    requires entry.op != op
    ensures NoEntry(log, op) ==> NoEntry(log + [entry], op)
    ensures forall i :: OneEntry(log, op, i) ==> OneEntry(log + [entry], op, i) && (log + [entry])[i] == log[i]
    ensures NoEntry(log + [entry], op) ==> NoEntry(log, op)
  {
    if NoEntry(log + [entry], op) {
      forall i | 0 <= i < |log| ensures log[i].op != op {
        assert (log + [entry])[i] == log[i];
      }
    }
  }

  lemma StaysCurrent(cfg: Config, start: Store, log: seq<Entry>, entry: Entry, collections: set<Text>)
    requires LogOK(cfg, start, log + [entry]) && AllCurrent(cfg, StoreAfter(start, log, |log|), collections)
    ensures AllCurrent(cfg, StoreAfter(start, log + [entry], |log| + 1), collections)
  {
    hide LogOK;
    forall c | c in collections ensures Current(cfg, StoreAfter(start, log + [entry], |log| + 1), c) {
      StoreAfterPrefix(start, log, entry, |log|);
      CurrentStays(cfg, start, log + [entry], |log|, |log| + 1, c);
    }
  }

  /** Every write is in the current schema version, so a current collection stays current. */
  lemma {:induction false} CurrentStays(cfg: Config, start: Store, log: seq<Entry>, i: nat, j: nat, c: Text)
    requires LogOK(cfg, start, log) && i <= j <= |log| && Current(cfg, StoreAfter(start, log, i), c)
    ensures Current(cfg, StoreAfter(start, log, j), c)
    decreases j
  {
    hide EntryOK, ApplyChange;
    if i < j {
      CurrentStays(cfg, start, log, i, j - 1, c);
      EntryAt(cfg, start, log, j - 1);
      EntryWritesCurrent(cfg, StoreAfter(start, log, j - 1), log[j - 1], c);
    }
  }

  lemma EntryWritesCurrent(cfg: Config, store: Store, entry: Entry, c: Text)
    requires EntryOK(cfg, store, entry)
    ensures c in entry.change.writes || Current(cfg, store, c) ==> Current(cfg, ApplyChange(store, entry.change), c)
  {
    hide PlanOf;
    var seen := SeenIn(store, entry.intent.collections);
    PlanShape(cfg, entry.intent, seen, entry.stamp);
    if c in entry.change.writes {
      assert WriteFollows(cfg, c, seen[c], entry.change.writes[c], entry.stamp);
    }
  }

  /** A commit of one operation keeps what is known of every other. */
  lemma OthersSurviveCommit(cfg: Config, start: Store, log: seq<Entry>, entry: Entry, op: OperationId,
                            operation: Operation)
    requires ValidConfig(cfg) && StoreOK(cfg, start) && LogOK(cfg, start, log) && LogOK(cfg, start, log + [entry])
    requires entry.op != op && OperationOK(cfg, start, log, op, operation)
    ensures OperationOK(cfg, start, log + [entry], op, operation)
  {
    hide LogOK, StoreOK, ValidConfig, IntentOK, PlanOf, CapturedOK, NoEntry, OneEntry, ApplyChange, Current;
    var collections := operation.intent.collections;
    EntriesKept(log, entry, op);
    RivalsKept(log, entry, operation.started, collections);
    forall c | c in StoreAfter(start, log, |log|).held ensures c in StoreAfter(start, log + [entry], |log| + 1).held {
      StoreAfterPrefix(start, log, entry, |log|);
      RevisionsGrow(cfg, start, log + [entry], |log|, |log| + 1, c);
    }
    match operation.phase {
      case Captured(attempt, at, seen) =>
          CapturedOKExtends(start, log, entry, operation.started, operation.intent, attempt, at, seen);
      case InFlight(flight, _) =>
          CapturedOKExtends(start, log, entry, operation.started, operation.intent, flight.attempt, flight.at,
                            flight.seen);
      case Recovering(flight, _) =>
          CapturedOKExtends(start, log, entry, operation.started, operation.intent, flight.attempt, flight.at,
                            flight.seen);
      case Rereading(flight, _) =>
          CapturedOKExtends(start, log, entry, operation.started, operation.intent, flight.attempt, flight.at,
                            flight.seen);
      case Finished(Unchanged(_, at)) => StoreAfterPrefix(start, log, entry, at);
      case Finished(Ready(at, _, _)) => StoreAfterPrefix(start, log, entry, at);
      case Finished(Saved(_)) =>
        if operation.intent.Upgrade? {
          StaysCurrent(cfg, start, log, entry, collections);
        }
      case Surveyed(_) => StoreAfterPrefix(start, log, entry, operation.started);
      case _ =>
    }
  }
}

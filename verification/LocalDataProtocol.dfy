/**
 Any number of tabs updating one store: the whole protocol as a transition
 system. Each operation moves between its await points; each step below is what
 happens between two of them, or what the browser does to its transaction
 meanwhile. An `update` or `updateMany` call is one operation. An `initialize`
 call is one operation up to its verifying read; if it then rewrites collections
 found in an older schema version, each rewrite is an operation of its own that
 names the call.

 The browser decides a transaction once (`Land`), atomically and in order with
 every other transaction, as section 2.7 of the W3C Indexed Database API 3.0
 orders overlapping transactions. A timeout can be observed before or after that
 decision, but a recovery read is a later transaction and so follows it.
 */
module LocalDataProtocol {
  import opened Basics
  import opened LocalDataContent
  import opened CommitPlan

  const MAX_UPDATE_ATTEMPTS: nat := 3

  type OperationId = nat
  type ProviderId = nat

  datatype Code =
    | Conflict | CommitUnknown | TimedOut | ReadFailed | UnusableCodec | Missing | Integrity | WriteFailed | Invalid
    | Abandoned

  /** How the browser settled a transaction. */
  datatype Landing = Applied | NotApplied(code: Code)

  /**
   `Unchanged` wrote nothing, judged from the first `at` commits. `Ready` read all
   its collections after the first `at` commits; `Unverified` is an initialisation
   whose verifying read failed. In both, `created` says whether the operation's own
   commit was reported successful before that read.
   */
  datatype Outcome =
    | Unchanged(result: Json, at: nat)
    | Saved(result: Json)
    | Ready(at: nat, seen: map<Text, Seen>, created: bool)
    | Failed(code: Code)
    | Unverified(code: Code, created: bool)

  /** A commit under way: the attempt, the position and contents of its snapshot, and the change planned from them. */
  datatype Flight = Flight(attempt: nat, at: nat, seen: map<Text, Seen>, stamp: Stamp, change: Change, result: Json)

  datatype Phase =
    | Idle(attempt: nat)
    | Surveyed(missing: set<Text>)
    | Captured(attempt: nat, at: nat, seen: map<Text, Seen>)
    | InFlight(flight: Flight, landed: Option<Landing>)
    | Recovering(flight: Flight, landed: Option<Landing>)
    | Rereading(flight: Flight, landed: Option<Landing>)
    | Verifying(created: bool)
    | Finished(outcome: Outcome)

  datatype Operation = Operation(provider: ProviderId, intent: Intent, started: nat, phase: Phase)

  datatype CommitState = Confirmed | Reconciling | Unknown

  /** A committed transaction, in commit order. */
  datatype Entry = Entry(op: OperationId, intent: Intent, stamp: Stamp, change: Change, result: Json)

  datatype World = World(store: Store, log: seq<Entry>, states: map<ProviderId, CommitState>,
                         operations: map<OperationId, Operation>)

  datatype Step =
    | Begin(op: OperationId, provider: ProviderId, intent: Intent)
    | BeginUpgrade(op: OperationId, call: OperationId, collection: Text)
    | Survey(op: OperationId)
    | Capture(op: OperationId)
    | Refuse(op: OperationId)
    | Abandon(op: OperationId)
    | ReadFails(op: OperationId, code: Code)
    | Propose(op: OperationId, stamp: Stamp)
    | Land(op: OperationId, landing: Landing)
    | Acknowledge(op: OperationId)
    | NeverSent(op: OperationId)
    | TimeOut(op: OperationId)
    | Reconcile(op: OperationId, readable: bool)
    | Settle(op: OperationId, readable: bool)
    | Verify(op: OperationId)
    | Close(provider: ProviderId)

  function StateOf(w: World, p: ProviderId): CommitState
  {
    if p in w.states then w.states[p] else Confirmed
  }

  predicate AllHeld(store: Store, collections: set<Text>)
  {
    collections <= store.held.Keys
  }

  function Moved(w: World, op: OperationId, phase: Phase): World
    requires op in w.operations
  {
    w.(operations := w.operations[op := w.operations[op].(phase := phase)])
  }

  function MovedTo(w: World, op: OperationId, phase: Phase, state: CommitState): World
    requires op in w.operations
  {
    Moved(w, op, phase).(states := w.states[w.operations[op].provider := state])
  }

  /** The collection was read in an older schema version. */
  predicate Outdated(cfg: Config, c: Text, seen: Seen)
  {
    c in cfg.definitions && seen.Present? && seen.manifest.schemaVersion < cfg.definitions[c].schemaVersion
  }

  /** How a read transaction fails: it never answers, it aborts, or a codec budget it needs is unusable. */
  predicate ReadCode(cfg: Config, collections: set<Text>, code: Code)
  {
    || code in {TimedOut, ReadFailed}
    || (code == UnusableCodec && exists c :: c in collections && BudgetUnusable(cfg, c))
  }

  predicate BudgetUnusable(cfg: Config, c: Text)
  {
    c in cfg.definitions && CollectionBudget(cfg.definitions[c], cfg.codec).None?
  }

  /** Initialisation `call` has already turned to this collection. */
  predicate UpgradeBegun(w: World, call: OperationId, c: Text)
  {
    exists op ::
        op in w.operations && UpgradeOf(w.operations[op].intent, call) && c in w.operations[op].intent.collections
  }

  predicate UpgradeOf(intent: Intent, call: OperationId)
  {
    intent.Upgrade? && intent.call == call
  }

  predicate Undecided(phase: Phase)
  {
    (phase.InFlight? || phase.Recovering?) && phase.landed.None?
  }

  /** The proposed manifests are in place. */
  predicate ProposalInPlace(store: Store, change: Change)
  {
    forall c :: c in change.writes ==> ManifestAt(store, c) == Some(change.writes[c].manifest)
  }

  /** The manifests the written collections were expected to have are still there. */
  predicate ExpectationInPlace(store: Store, change: Change)
  {
    forall c :: c in change.writes ==> c in change.expected && ManifestAt(store, c) == change.expected[c]
  }

  predicate LandingPossible(w: World, op: OperationId, landing: Landing)
    requires op in w.operations && Undecided(w.operations[op].phase)
  {
    var change := w.operations[op].phase.flight.change;
    match landing
    case Applied => CommitAllowed(w.store, change)
    case NotApplied(Conflict) => !Matches(w.store, change.expected)
    case NotApplied(Integrity) => ReplacesStray(w.store, change)
    case NotApplied(CommitUnknown) => StateOf(w, w.operations[op].provider) != Confirmed
    case NotApplied(code) => code == WriteFailed
  }

  predicate Enabled(cfg: Config, w: World, step: Step)
  {
    match step
    case Begin(op, _, intent) => op !in w.operations && IntentOK(cfg, intent) && !intent.Upgrade?
    case BeginUpgrade(op, call, c) =>
      && op !in w.operations && call in w.operations && w.operations[call].phase.Finished?
      && w.operations[call].phase.outcome.Ready? && c in w.operations[call].phase.outcome.seen
      && Outdated(cfg, c, w.operations[call].phase.outcome.seen[c]) && !UpgradeBegun(w, call, c)
    case Survey(op) => op in w.operations && w.operations[op].phase.Idle? && w.operations[op].intent.Create?
    case Capture(op) =>
      && op in w.operations
      && (if w.operations[op].intent.Create? then w.operations[op].phase.Surveyed? else w.operations[op].phase.Idle?)
    case Refuse(op) =>
      && op in w.operations && (w.operations[op].phase.Idle? || w.operations[op].phase.Captured?)
      && StateOf(w, w.operations[op].provider) != Confirmed
    case Abandon(op) => op in w.operations && (w.operations[op].phase.Idle? || w.operations[op].phase.Captured?)
    case ReadFails(op, code) =>
      && op in w.operations && ReadCode(cfg, w.operations[op].intent.collections, code)
      && (w.operations[op].phase.Idle? || w.operations[op].phase.Surveyed? || w.operations[op].phase.Verifying?)
    case Propose(op, stamp) =>
      && op in w.operations && w.operations[op].phase.Captured?
      && w.operations[op].phase.seen.Keys == w.operations[op].intent.collections
      && IntentOK(cfg, w.operations[op].intent)
      && (PlanOf(cfg, w.operations[op].intent, w.operations[op].phase.seen, stamp).Proceed? ==>
          StateOf(w, w.operations[op].provider) == Confirmed)
    case Land(op, landing) => op in w.operations && Undecided(w.operations[op].phase) && LandingPossible(w, op, landing)
    case Acknowledge(op) =>
        op in w.operations && w.operations[op].phase.InFlight? && w.operations[op].phase.landed.Some?
    case NeverSent(op) => op in w.operations && w.operations[op].phase.InFlight? && w.operations[op].phase.landed.None?
    case TimeOut(op) => op in w.operations && w.operations[op].phase.InFlight?
    case Reconcile(op, _) =>
        op in w.operations && w.operations[op].phase.Recovering? && w.operations[op].phase.landed.Some?
    case Settle(op, _) => op in w.operations && w.operations[op].phase.Rereading?
    case Verify(op) => op in w.operations && w.operations[op].phase.Verifying?
    case Close(_) => true
  }

  /** After a successful commit an update reports its result; initialisation goes on to verify every collection. */
  function AfterSave(operation: Operation): Phase
    requires operation.phase.InFlight? || operation.phase.Recovering?
  {
    if operation.intent.Create? then Verifying(true) else Finished(Saved(operation.phase.flight.result))
  }

  /** A snapshot in which the collections already found missing stay absent. */
  function SeenExcept(store: Store, collections: set<Text>, missing: set<Text>): map<Text, Seen>
  {
    map c | c in collections :: if c in missing then Absent else SeenAt(store, c)
  }

  /** Nothing to create, something that may not be created, or collections to create. */
  function AfterSurvey(intent: Intent, missing: set<Text>): Phase
    requires intent.Create?
  {
    if missing == {} then Verifying(false)
    else if exists c :: c in missing && !MayCreate(intent, c) then Finished(Failed(Missing))
    else Surveyed(missing)
  }

  /** What a read transaction that failed leaves a call with. */
  function AfterFailedRead(phase: Phase, code: Code): Outcome
  {
    if phase.Verifying? then Unverified(code, phase.created) else Failed(code)
  }

  function AfterVerify(w: World, operation: Operation): Outcome
    requires operation.phase.Verifying?
  {
    if AllHeld(w.store, operation.intent.collections)
    then Ready(|w.log|, SeenIn(w.store, operation.intent.collections), operation.phase.created)
    else Unverified(Missing, operation.phase.created)
  }

  function DoCapture(w: World, op: OperationId): World
    requires op in w.operations
    requires w.operations[op].phase.Idle? || w.operations[op].phase.Surveyed?
  {
    var operation := w.operations[op];
    var collections := operation.intent.collections;
    var missing := if operation.phase.Surveyed? then operation.phase.missing else {};
    var attempt := if operation.phase.Idle? then operation.phase.attempt else 1;
    if AllHeld(w.store, collections - missing)
    then Moved(w, op, Captured(attempt, |w.log|, SeenExcept(w.store, collections, missing)))
    else Moved(w, op, Finished(Failed(Missing)))
  }

  function DoPropose(cfg: Config, w: World, op: OperationId, stamp: Stamp): World
    requires Enabled(cfg, w, Propose(op, stamp))
  {
    var operation := w.operations[op];
    var phase := operation.phase;
    match PlanOf(cfg, operation.intent, phase.seen, stamp)
    case Reject => Moved(w, op, Finished(Failed(Invalid)))
    case Keep(result) =>
        Moved(w, op, if operation.intent.Create? then Verifying(false) else Finished(Unchanged(result, phase.at)))
    case Proceed(change, result) =>
        Moved(w, op, InFlight(Flight(phase.attempt, phase.at, phase.seen, stamp, change, result), None))
  }

  function DoLand(w: World, op: OperationId, landing: Landing): World
    requires op in w.operations && Undecided(w.operations[op].phase)
  {
    var operation := w.operations[op];
    var flight := operation.phase.flight;
    var decided :=
        Moved(w, op, if operation.phase.InFlight? then InFlight(flight, Some(landing))
              else Recovering(flight, Some(landing)));
    if landing.Applied? then
      decided.(store := ApplyChange(w.store, flight.change),
               log := w.log + [Entry(op, operation.intent, flight.stamp, flight.change, flight.result)])
    else decided
  }

  function DoAcknowledge(w: World, op: OperationId): World
    requires op in w.operations && w.operations[op].phase.InFlight? && w.operations[op].phase.landed.Some?
  {
    var operation := w.operations[op];
    var attempt := operation.phase.flight.attempt;
    match operation.phase.landed.value
    case Applied => Moved(w, op, AfterSave(operation))
    case NotApplied(Conflict) =>
      Moved(w, op,
        if operation.intent.Create? then Verifying(false)
        else if operation.intent.Update? && attempt < MAX_UPDATE_ATTEMPTS then Idle(attempt + 1)
        else Finished(Failed(Conflict)))
    case NotApplied(CommitUnknown) => MovedTo(w, op, Finished(Failed(CommitUnknown)), Unknown)
    case NotApplied(code) => Moved(w, op, Finished(Failed(code)))
  }

  function Do(cfg: Config, w: World, step: Step): World
    requires Enabled(cfg, w, step)
  {
    match step
    case Begin(op, provider, intent) =>
        w.(operations := w.operations[op := Operation(provider, intent, |w.log|, Idle(1))])
    case BeginUpgrade(op, call, c) =>
      var outcome := w.operations[call].phase.outcome;
      var captured := Captured(1, outcome.at, map[c := outcome.seen[c]]);
      w.(operations :=
         w.operations[op := Operation(w.operations[call].provider, Upgrade({c}, call), outcome.at, captured)])
    case Survey(op) =>
        Moved(w, op, AfterSurvey(w.operations[op].intent, w.operations[op].intent.collections - w.store.held.Keys))
    case Capture(op) => DoCapture(w, op)
    case Refuse(op) => Moved(w, op, Finished(Failed(CommitUnknown)))
    case Abandon(op) => Moved(w, op, Finished(Failed(Abandoned)))
    case ReadFails(op, code) => Moved(w, op, Finished(AfterFailedRead(w.operations[op].phase, code)))
    case Propose(op, stamp) => DoPropose(cfg, w, op, stamp)
    case Land(op, landing) => DoLand(w, op, landing)
    case Acknowledge(op) => DoAcknowledge(w, op)
    case NeverSent(op) => MovedTo(w, op, Finished(Failed(CommitUnknown)), Unknown)
    case TimeOut(op) =>
        MovedTo(w, op, Recovering(w.operations[op].phase.flight, w.operations[op].phase.landed), Reconciling)
    case Reconcile(op, readable) =>
      if readable && ProposalInPlace(w.store, w.operations[op].phase.flight.change)
      then MovedTo(w, op, AfterSave(w.operations[op]), Confirmed)
      else Moved(w, op, Rereading(w.operations[op].phase.flight, w.operations[op].phase.landed))
    case Settle(op, readable) =>
      if readable && ExpectationInPlace(w.store, w.operations[op].phase.flight.change)
      then MovedTo(w, op, Finished(Failed(TimedOut)), Confirmed)
      else MovedTo(w, op, Finished(Failed(CommitUnknown)), Unknown)
    case Verify(op) => Moved(w, op, Finished(AfterVerify(w, w.operations[op])))
    case Close(provider) => w.(states := w.states[provider := Confirmed])
  }

  function Initial(store: Store): World { World(store, [], map[], map[]) }

  /** Every step in turn is enabled. */
  ghost predicate Runs(cfg: Config, w: World, steps: seq<Step>)
    decreases |steps|
  {
    steps == [] || (Enabled(cfg, w, steps[0]) && Runs(cfg, Do(cfg, w, steps[0]), steps[1..]))
  }

  ghost function After(cfg: Config, w: World, steps: seq<Step>): World
    requires Runs(cfg, w, steps)
    decreases |steps|
  {
    if steps == [] then w else After(cfg, Do(cfg, w, steps[0]), steps[1..])
  }
}

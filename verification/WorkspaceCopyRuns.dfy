/**
 The copy coordinator at work on a destination that other tabs use too. Its two
 kinds of write are ordinary updates whose updaters refuse: the metadata write
 unless every collection is empty, a file write unless the collection still is
 what was captured. What the updaters check inside one attempt then holds of the
 place each write takes in the history.
 */
module WorkspaceCopyRuns {
  import opened Basics
  import opened LocalDataContent
  import opened CommitPlan
  import opened CommitPlanLaws
  import opened LocalDataProtocol
  import opened CommitLog
  import opened LocalDataInvariant
  import opened LocalDataSafety
  import opened LocalDataGuarantees
  import opened LocalDataRecovery
  import opened LocalDataInitialisation
  import C = WorkspaceCopy

  type Documents = map<Text, Json>

  /** What was captured from the source, what an empty collection holds, and the collection of each file group. */
  datatype Prepared = Prepared(documents: Documents, empty: Documents, groups: seq<Text>)

  ghost predicate PreparedOK(cfg: Config, p: Prepared)
  {
    && p.documents != map[] && p.documents.Keys == p.empty.Keys && p.documents.Keys <= cfg.definitions.Keys
    && (forall c :: c in p.documents ==> Normal(cfg.definitions[c], p.documents[c]))
    && (forall i :: 0 <= i < |p.groups| ==> p.groups[i] in p.documents)
  }

  // ---------- The two updaters ----------

  predicate Serialises(cfg: Config, c: Text, actual: Documents, expected: Json)
  {
    c in cfg.definitions && c in actual
        && cfg.definitions[c].serialize(actual[c]) == cfg.definitions[c].serialize(expected)
  }

  /** Every collection is still empty. */
  predicate AllEmpty(cfg: Config, p: Prepared, actual: Documents)
  {
    forall c :: c in p.empty ==> Serialises(cfg, c, actual, p.empty[c])
  }

  /** `matches`: every collection is what was captured. */
  predicate AllCaptured(cfg: Config, p: Prepared, actual: Documents)
  {
    forall c :: c in p.documents ==> Serialises(cfg, c, actual, p.documents[c])
  }

  function MetadataAnswer(cfg: Config, p: Prepared, current: Documents): Option<(Documents, Json)>
  {
    if AllEmpty(cfg, p, current) then Some((p.documents, Json.Null)) else None
  }

  function FilesAnswer(cfg: Config, p: Prepared, owner: Text, current: Documents): Option<(Documents, Json)>
    requires owner in p.documents
  {
    if Serialises(cfg, owner, current, p.documents[owner]) then Some((current, Json.Null)) else None
  }

  function MetadataIntent(cfg: Config, p: Prepared): Intent
  {
    Update(p.documents.Keys, (current: Documents) => MetadataAnswer(cfg, p, current), map[], true)
  }

  function FilesIntent(cfg: Config, p: Prepared, owner: Text, files: map<Text, SelectedFile>): Intent
    requires owner in p.documents
  {
    Update({owner}, (current: Documents) => FilesAnswer(cfg, p, owner, current), map[owner := files], true)
  }

  // ---------- Where a write lands ----------

  /** An update that landed was answered by its updater on the documents it landed on, and left its answer there. */
  lemma LandedWasAnswered(cfg: Config, before: Store, entry: Entry)
    requires ValidConfig(cfg) && StoreOK(cfg, before) && EntryOK(cfg, before, entry) && entry.intent.Update?
    ensures IntentOK(cfg, entry.intent) && SerialAnswer(DocumentsOf(before), entry.intent).Some?
    ensures SerialStep(cfg, DocumentsOf(before), entry.intent).0 == DocumentsOf(ApplyChange(before, entry.change))
  {
    hide StoreOK, ValidConfig, ApplyChange, SerialStep, DocumentsOf, CommitAllowed, DraftsOf;
    PlanRefinesSerialStep(cfg, before, entry.intent, entry.stamp);
    SameAnswer(before, entry.intent);
  }

  /** The metadata write lands on empty collections only, and leaves exactly the captured documents in them. */
  lemma MetadataLands(cfg: Config, p: Prepared, before: Store, entry: Entry)
    requires ValidConfig(cfg) && StoreOK(cfg, before) && EntryOK(cfg, before, entry)
    requires PreparedOK(cfg, p) && entry.intent == MetadataIntent(cfg, p)
    ensures AllEmpty(cfg, p, DocumentsOf(before))
    ensures DocumentsOf(ApplyChange(before, entry.change)) == DocumentsOf(before) + p.documents
  {
    hide StoreOK, ValidConfig, ApplyChange, DocumentsOf, EntryOK, AllEmpty, PreparedOK, SerialStep, SerialAnswer;
    LandedWasAnswered(cfg, before, entry);
    MetadataIsSerial(cfg, p, DocumentsOf(before));
  }

  lemma MetadataIsSerial(cfg: Config, p: Prepared, documents: Documents)
    requires PreparedOK(cfg, p) && IntentOK(cfg, MetadataIntent(cfg, p))
    requires SerialAnswer(documents, MetadataIntent(cfg, p)).Some?
    ensures AllEmpty(cfg, p, documents)
    ensures SerialStep(cfg, documents, MetadataIntent(cfg, p)).0 == documents + p.documents
  {
    hide Serialises, Normal, IntentOK, NormalOr;
    var named := Named(documents, p.documents.Keys);
    assert AllEmpty(cfg, p, named);
    forall c | c in p.empty ensures Serialises(cfg, c, documents, p.empty[c]) {
      NamedSerialises(cfg, c, documents, p.documents.Keys, p.empty[c]);
    }
    forall c | c in p.documents ensures NormalOr(cfg.definitions[c], p.documents[c]) == p.documents[c] {
      NormalStays(cfg.definitions[c], p.documents[c]);
    }
    assert (map c | c in p.documents.Keys :: NormalOr(cfg.definitions[c], p.documents[c])) == p.documents;
  }

  lemma NamedSerialises(cfg: Config, c: Text, documents: Documents, collections: set<Text>, expected: Json)
    requires c in collections
    ensures Serialises(cfg, c, Named(documents, collections), expected) <==> Serialises(cfg, c, documents, expected)
  {
  }

  lemma NormalStays(definition: Definition, document: Json)
    requires Normal(definition, document)
    ensures NormalOr(definition, document) == document
  {
  }

  /** A file write lands beside the captured document only, and leaves every document as it is. */
  lemma FilesLand(cfg: Config, p: Prepared, owner: Text, files: map<Text, SelectedFile>, before: Store, entry: Entry)
    requires ValidConfig(cfg) && StoreOK(cfg, before) && EntryOK(cfg, before, entry)
    requires PreparedOK(cfg, p) && owner in p.documents && entry.intent == FilesIntent(cfg, p, owner, files)
    ensures owner in DocumentsOf(before) && DocumentsOf(before)[owner] == p.documents[owner]
    ensures DocumentsOf(ApplyChange(before, entry.change)) == DocumentsOf(before)
  {
    hide ValidConfig, ApplyChange, EntryOK, StoreOK, PreparedOK, SerialStep, SerialAnswer, DocumentsOf;
    LandedWasAnswered(cfg, before, entry);
    FilesAreSerial(cfg, p, owner, files, before);
  }

  lemma FilesAreSerial(cfg: Config, p: Prepared, owner: Text, files: map<Text, SelectedFile>, before: Store)
    requires ValidConfig(cfg) && StoreOK(cfg, before) && PreparedOK(cfg, p) && owner in p.documents
    requires var intent := FilesIntent(cfg, p, owner, files);
      IntentOK(cfg, intent) && SerialAnswer(DocumentsOf(before), intent).Some?
    ensures owner in DocumentsOf(before) && DocumentsOf(before)[owner] == p.documents[owner]
    ensures SerialStep(cfg, DocumentsOf(before), FilesIntent(cfg, p, owner, files)).0 == DocumentsOf(before)
  {
    hide ValidConfig, HeldOK, Normal, IntentOK;
    var documents := DocumentsOf(before);
    NamedSerialises(cfg, owner, documents, {owner}, p.documents[owner]);
    assert HeldOK(cfg, owner, before.held[owner]);
    HeldIsNormal(cfg, owner, before.held[owner]);
    SameSerialised(cfg, owner, documents[owner], p.documents[owner]);
    NormalStays(cfg.definitions[owner], documents[owner]);
    assert Named(documents, {owner})[owner] == documents[owner];
    assert documents + (map c | c in {owner} :: documents[c]) == documents;
  }

  lemma SameSerialised(cfg: Config, c: Text, a: Json, b: Json)
    requires ValidConfig(cfg) && c in cfg.definitions && Normal(cfg.definitions[c], a) && Normal(cfg.definitions[c], b)
    requires cfg.definitions[c].serialize(a) == cfg.definitions[c].serialize(b)
    ensures a == b
  {
  }

  // ---------- Coordinator and protocol together ----------

  /** A write the coordinator issued: the update it became, and the point it was issued for. */
  datatype Issue = Issue(op: OperationId, point: C.Point)

  /** The coordinator, the steps every tab has taken on the destination, and the writes issued. */
  datatype System = System(copy: C.State, steps: seq<Step>, issued: seq<Issue>)

  /**
   `Local` is a step of the coordinator that neither issues nor awaits a write;
   `Write` issues one as an update of its provider; `Answer` continues once that
   update has finished; `Remote` is any step of the destination's protocol.
   */
  datatype Move =
    | Local(event: C.Event)
    | Write(op: OperationId, provider: ProviderId, files: map<Text, SelectedFile>)
    | Answer(needed: bool)
    | Remote(step: Step)

  predicate AwaitsWrite(s: C.State) { s.running.Some?
                                     && (s.running.value.1.WritingMetadata? || s.running.value.1.WritingFiles?) }

  /** The write about to be issued, when the check before it passes. */
  function NextWrite(s: C.State): Option<C.Point>
  {
    if s.running.None? then None
    else
      match s.running.value.1
      case LastCheck => Some(C.WritingMetadata)
      case GroupSourceCheck(group) => if s.closing then None else Some(C.WritingFiles(group))
      case _ => None
  }

  predicate PointOK(p: Prepared, point: C.Point)
  {
    point.WritingMetadata? || (point.WritingFiles? && point.group < |p.groups| && p.groups[point.group] in p.documents)
  }

  function IntentFor(cfg: Config, p: Prepared, point: C.Point, files: map<Text, SelectedFile>): Intent
    requires PointOK(p, point)
  {
    if point.WritingMetadata? then MetadataIntent(cfg, p) else FilesIntent(cfg, p, p.groups[point.group], files)
  }

  /** The awaited update returned a result. */
  predicate Succeeded(w: World, op: OperationId)
  {
    op in w.operations && w.operations[op].phase.Finished?
    && (w.operations[op].phase.outcome.Saved? || w.operations[op].phase.outcome.Unchanged?)
  }

  ghost predicate Possible(cfg: Config, start: Store, p: Prepared, s: System, move: Move)
    requires RunFrom(cfg, start, s.steps)
  {
    var w := Reached(cfg, start, s.steps);
    match move
    case Local(event) =>
      && C.Enabled(s.copy, event) && !(event.Resume? && AwaitsWrite(s.copy))
      && !(event.Resume? && event.ok && NextWrite(s.copy).Some?)
      && (event.Resume? && event.ok && C.AtPoint(s.copy, C.DestinationCheck) ==>
          AllCaptured(cfg, p, DocumentsOf(w.store)))
    case Write(op, provider, files) =>
      && NextWrite(s.copy).Some? && PointOK(p, NextWrite(s.copy).value)
      && Enabled(cfg, w, Begin(op, provider, IntentFor(cfg, p, NextWrite(s.copy).value, files)))
    case Answer(_) =>
      && AwaitsWrite(s.copy) && s.issued != []
      && s.issued[|s.issued| - 1].op in w.operations && w.operations[s.issued[|s.issued| - 1].op].phase.Finished?
    case Remote(step) => Enabled(cfg, w, step)
  }

  ghost function Moves(cfg: Config, start: Store, p: Prepared, s: System, move: Move): System
    requires RunFrom(cfg, start, s.steps) && Possible(cfg, start, p, s, move)
  {
    match move
    case Local(event) => s.(copy := C.Next(|p.groups|, s.copy, event))
    case Write(op, provider, files) =>
      var point := NextWrite(s.copy).value;
      System(C.Next(|p.groups|, s.copy, C.Resume(true, false)),
             s.steps + [Begin(op, provider, IntentFor(cfg, p, point, files))],
             s.issued + [Issue(op, point)])
    case Answer(needed) =>
      var ok := Succeeded(Reached(cfg, start, s.steps), s.issued[|s.issued| - 1].op);
      s.(copy := C.Next(|p.groups|, s.copy, C.Resume(ok, needed)))
    case Remote(step) => s.(steps := s.steps + [step])
  }

  lemma RunGoesOn(cfg: Config, start: Store, steps: seq<Step>, step: Step)
    requires RunFrom(cfg, start, steps) && Enabled(cfg, Reached(cfg, start, steps), step)
    ensures RunFrom(cfg, start, steps + [step])
    ensures Reached(cfg, start, steps + [step]) == Do(cfg, Reached(cfg, start, steps), step)
  {
    hide Enabled, Do, ValidConfig, StoreOK;
    var w := Reached(cfg, start, steps);
    LeadsOn(cfg, Initial(start), steps, w, step, Do(cfg, w, step));
  }

  // ---------- What every joint run keeps ----------

  /** The operation is the update issued for this point. */
  ghost predicate IssuedAs(cfg: Config, p: Prepared, w: World, issue: Issue)
  {
    && issue.op in w.operations && PointOK(p, issue.point)
    && exists files :: w.operations[issue.op].intent == IntentFor(cfg, p, issue.point, files)
  }

  predicate MetadataIssue(issue: Issue) { issue.point.WritingMetadata? }

  ghost predicate SystemOK(cfg: Config, start: Store, p: Prepared, s: System)
  {
    && RunFrom(cfg, start, s.steps) && C.Inv(s.copy)
    && (forall i :: 0 <= i < |s.issued| ==> IssuedAs(cfg, p, Reached(cfg, start, s.steps), s.issued[i]))
    && (forall i, j :: 0 <= i < j < |s.issued| ==> s.issued[i].op != s.issued[j].op)
    && MetadataIssues(s.issued) == C.Count(s.copy.calls, C.WritingMetadata)
    && (s.copy.writeState.Committed? ==>
        s.issued != [] && Succeeded(Reached(cfg, start, s.steps), s.issued[|s.issued| - 1].op))
  }

  function MetadataIssues(issued: seq<Issue>): nat
  {
    if issued == [] then 0 else MetadataIssues(issued[..|issued| - 1]) + if MetadataIssue(issued[|issued| - 1]) then 1
        else 0
  }

  /** Later steps leave an issued write what it is, and a finished one as it ended. */
  lemma IssuesPersist(cfg: Config, p: Prepared, w: World, step: Step, issue: Issue)
    requires Enabled(cfg, w, step)
    ensures IssuedAs(cfg, p, w, issue) ==> IssuedAs(cfg, p, Do(cfg, w, step), issue)
    ensures Succeeded(w, issue.op) ==> Succeeded(Do(cfg, w, step), issue.op)
  {
    hide Do, Enabled;
    if issue.op in w.operations {
      StepKeepsIntents(cfg, w, step, issue.op);
    }
  }

  lemma RemoteKeepsSystemOK(cfg: Config, start: Store, p: Prepared, s: System, step: Step)
    requires SystemOK(cfg, start, p, s) && Possible(cfg, start, p, s, Remote(step))
    ensures SystemOK(cfg, start, p, s.(steps := s.steps + [step]))
  {
    hide RunFrom, Reached, Enabled, Do, IssuedAs, Succeeded, C.Inv;
    RunGoesOn(cfg, start, s.steps, step);
    forall i | 0 <= i < |s.issued|
      ensures IssuedAs(cfg, p, Reached(cfg, start, s.steps + [step]), s.issued[i])
      ensures Succeeded(Reached(cfg, start, s.steps), s.issued[i].op) ==>
        Succeeded(Reached(cfg, start, s.steps + [step]), s.issued[i].op)
    {
      IssuesPersist(cfg, p, Reached(cfg, start, s.steps), step, s.issued[i]);
    }
  }

  /** A step that neither issues nor answers a write starts no metadata write and confirms nothing. */
  lemma QuietCoordinatorStep(groups: nat, s: C.State, e: C.Event)
    requires C.Enabled(s, e) && C.Inv(s) && (e.Resume? && e.ok ==> NextWrite(s).None?)
    ensures var next := C.Next(groups, s, e);
      && C.Inv(next) && C.Count(next.calls, C.WritingMetadata) == C.Count(s.calls, C.WritingMetadata)
      && (!(e.Resume? && e.ok && AwaitsWrite(s)) && next.writeState.Committed? ==> s.writeState.Committed?)
  {
    hide C.Inv, C.Count;
    C.StepKeepsInv(groups, s, e);
    C.StartsOneCall(groups, s, e);
    if C.StartedBy(s, e).Some? {
      C.OneMoreCall(s.calls, C.Call(C.StartedBy(s, e).value, s.closing), C.WritingMetadata);
    }
  }

  lemma LocalKeepsSystemOK(cfg: Config, start: Store, p: Prepared, s: System, move: Move)
    requires move.Local? || move.Answer?
    requires SystemOK(cfg, start, p, s) && Possible(cfg, start, p, s, move)
    ensures SystemOK(cfg, start, p, Moves(cfg, start, p, s, move))
  {
    hide RunFrom, Reached, IssuedAs, Succeeded, C.Inv, C.Count, C.Next, AllCaptured;
    var ok := move.Answer? && Succeeded(Reached(cfg, start, s.steps), s.issued[|s.issued| - 1].op);
    QuietCoordinatorStep(|p.groups|, s.copy, if move.Local? then move.event else C.Resume(ok, move.needed));
  }

  lemma WriteKeepsSystemOK(cfg: Config, start: Store, p: Prepared, s: System, move: Move)
    requires move.Write?
    requires SystemOK(cfg, start, p, s) && Possible(cfg, start, p, s, move)
    ensures SystemOK(cfg, start, p, Moves(cfg, start, p, s, move))
  {
    hide RunFrom, Reached, Succeeded, C.Inv, C.Count, C.Next, IssuedAs, Enabled, Do;
    var point := NextWrite(s.copy).value;
    var intent, w := IntentFor(cfg, p, point, move.files), Reached(cfg, start, s.steps);
    var step, next := Begin(move.op, move.provider, intent), Moves(cfg, start, p, s, move);
    RunGoesOn(cfg, start, s.steps, step);
    BeginsFresh(cfg, w, move.op, move.provider, intent);
    WriteStep(|p.groups|, s.copy);
    forall i | 0 <= i < |s.issued|
      ensures IssuedAs(cfg, p, Reached(cfg, start, next.steps), s.issued[i]) && s.issued[i].op != move.op
    {
      IssuesPersist(cfg, p, w, step, s.issued[i]);
      IssuedIsKnown(cfg, p, w, s.issued[i]);
    }
    assert IssuedAs(cfg, p, Reached(cfg, start, next.steps), Issue(move.op, point)) by {
      IssuedNow(cfg, p, Reached(cfg, start, next.steps), Issue(move.op, point), move.files);
    }
    assert next.issued[..|s.issued|] == s.issued;
  }

  lemma IssuedIsKnown(cfg: Config, p: Prepared, w: World, issue: Issue)
    requires IssuedAs(cfg, p, w, issue)
    ensures issue.op in w.operations
  {
  }

  lemma IssuedNow(cfg: Config, p: Prepared, w: World, issue: Issue, files: map<Text, SelectedFile>)
    requires issue.op in w.operations && PointOK(p, issue.point)
        && w.operations[issue.op].intent == IntentFor(cfg, p, issue.point, files)
    ensures IssuedAs(cfg, p, w, issue)
  {
  }

  lemma BeginsFresh(cfg: Config, w: World, op: OperationId, provider: ProviderId, intent: Intent)
    requires Enabled(cfg, w, Begin(op, provider, intent))
    ensures op !in w.operations
    ensures var next := Do(cfg, w, Begin(op, provider, intent));
        op in next.operations && next.operations[op].intent == intent
  {
  }

  /** The coordinator's part of issuing a write. */
  lemma WriteStep(groups: nat, s: C.State)
    requires C.Inv(s) && NextWrite(s).Some?
    ensures var next := C.Next(groups, s, C.Resume(true, false));
      && C.Inv(next) && next.writeState.Unconfirmed?
      && C.Count(next.calls, C.WritingMetadata)
          == C.Count(s.calls, C.WritingMetadata) + if NextWrite(s).value.WritingMetadata? then 1 else 0
  {
    hide C.Inv, C.Count;
    C.StepKeepsInv(groups, s, C.Resume(true, false));
    C.OneMoreCall(s.calls, C.Call(NextWrite(s).value, s.closing), C.WritingMetadata);
  }

  // ---------- Joint runs ----------

  /** A joint move keeps the destination's steps a run of its protocol. */
  lemma MovesStayRuns(cfg: Config, start: Store, p: Prepared, s: System, move: Move)
    requires RunFrom(cfg, start, s.steps) && Possible(cfg, start, p, s, move)
    ensures RunFrom(cfg, start, Moves(cfg, start, p, s, move).steps)
  {
    hide RunFrom, Reached, Enabled;
    match move {
      case Write(op, provider, files) =>
        RunGoesOn(cfg, start, s.steps, Begin(op, provider, IntentFor(cfg, p, NextWrite(s.copy).value, files)));
      case Remote(step) => RunGoesOn(cfg, start, s.steps, step);
      case _ =>
    }
  }

  ghost predicate JointRun(cfg: Config, start: Store, p: Prepared, s: System, moves: seq<Move>)
    requires RunFrom(cfg, start, s.steps)
    decreases |moves|
  {
    moves == [] ||
    (Possible(cfg, start, p, s, moves[0]) &&
     (MovesStayRuns(cfg, start, p, s, moves[0]);
      JointRun(cfg, start, p, Moves(cfg, start, p, s, moves[0]), moves[1..])))
  }

  ghost function JointAfter(cfg: Config, start: Store, p: Prepared, s: System, moves: seq<Move>): (end: System)
    requires RunFrom(cfg, start, s.steps) && JointRun(cfg, start, p, s, moves)
    ensures RunFrom(cfg, start, end.steps)
    decreases |moves|
  {
    if moves == [] then s
    else
      MovesStayRuns(cfg, start, p, s, moves[0]);
      JointAfter(cfg, start, p, Moves(cfg, start, p, s, moves[0]), moves[1..])
  }

  lemma {:induction false} RunKeepsSystemOK(cfg: Config, start: Store, p: Prepared, s: System, moves: seq<Move>)
    requires SystemOK(cfg, start, p, s) && JointRun(cfg, start, p, s, moves)
    ensures SystemOK(cfg, start, p, JointAfter(cfg, start, p, s, moves))
    decreases |moves|
  {
    hide RunFrom, IssuedAs, Succeeded, C.Inv, C.Count;
    if moves != [] {
      var next := Moves(cfg, start, p, s, moves[0]);
      MovesStayRuns(cfg, start, p, s, moves[0]);
      match moves[0] {
        case Local(_) => LocalKeepsSystemOK(cfg, start, p, s, moves[0]);
        case Answer(_) => LocalKeepsSystemOK(cfg, start, p, s, moves[0]);
        case Write(_, _, _) => WriteKeepsSystemOK(cfg, start, p, s, moves[0]);
        case Remote(step) => RemoteKeepsSystemOK(cfg, start, p, s, step);
      }
      RunKeepsSystemOK(cfg, start, p, next, moves[1..]);
    }
  }

  /** Nothing has happened yet. */
  const READY: System := System(C.INITIAL, [], [])

  lemma ReadySystemOK(cfg: Config, start: Store, p: Prepared)
    requires RunFrom(cfg, start, [])
    ensures SystemOK(cfg, start, p, READY)
  {
  }

  /** Entry `i` of the history is the `k`-th write the coordinator issued. */
  ghost predicate Landed(cfg: Config, start: Store, s: System, i: int, k: int)
    requires RunFrom(cfg, start, s.steps)
  {
    0 <= k < |s.issued| && 0 <= i < |Reached(cfg, start, s.steps).log|
        && Reached(cfg, start, s.steps).log[i].op == s.issued[k].op
  }

  /**
   Over every joint run, whatever other tabs do to the destination meanwhile: the
   metadata write takes effect only where every collection is empty, and leaves
   the captured documents in all of them; a file write takes effect only where its
   collection holds the captured document, and changes no document.
   */
  lemma WritesLandSafely(cfg: Config, start: Store, p: Prepared, moves: seq<Move>, i: nat, k: nat)
    requires RunFrom(cfg, start, []) && PreparedOK(cfg, p) && JointRun(cfg, start, p, READY, moves)
    requires Landed(cfg, start, JointAfter(cfg, start, p, READY, moves), i, k)
    ensures var s := JointAfter(cfg, start, p, READY, moves);
      var log, point := Reached(cfg, start, s.steps).log, s.issued[k].point;
      var before, after := DocumentsOf(StoreAfter(start, log, i)), DocumentsOf(StoreAfter(start, log, i + 1));
      && PointOK(p, point)
      && (point.WritingMetadata? ==> AllEmpty(cfg, p, before) && after == before + p.documents)
      && (point.WritingFiles? ==>
          var owner := p.groups[point.group]; owner in before && before[owner] == p.documents[owner] && after == before)
  {
    hide RunFrom, Reached, PreparedOK, StoreAfter, EntryOK, AllEmpty, DocumentsOf, ApplyChange, WorldOK, StoreOK,
        JointRun;
    ReadySystemOK(cfg, start, p);
    RunKeepsSystemOK(cfg, start, p, READY, moves);
    var s := JointAfter(cfg, start, p, READY, moves);
    var w := Reached(cfg, start, s.steps);
    var before, entry := EntryFacts(cfg, start, s.steps, i);
    var issue := s.issued[k];
    assert IssuedAs(cfg, p, w, issue);
    if issue.point.WritingMetadata? {
      MetadataLands(cfg, p, before, entry);
    } else {
      var files :| w.operations[issue.op].intent == IntentFor(cfg, p, issue.point, files);
      FilesLand(cfg, p, p.groups[issue.point.group], files, before, entry);
    }
  }

  /** An entry of a reachable history, and the store it landed on. */
  lemma EntryFacts(cfg: Config, start: Store, steps: seq<Step>, i: nat) returns (before: Store, entry: Entry)
    requires RunFrom(cfg, start, steps) && i < |Reached(cfg, start, steps).log|
    ensures var w := Reached(cfg, start, steps);
      && entry == w.log[i] && before == StoreAfter(start, w.log, i) && entry.op in w.operations
      && ValidConfig(cfg) && StoreOK(cfg, before) && EntryOK(cfg, before, entry)
      && entry.intent == w.operations[entry.op].intent
      && StoreAfter(start, w.log, i + 1) == ApplyChange(before, entry.change)
  {
    hide StoreOK, ValidConfig, LogOK, Reached, OperationOK, EntryOK, ApplyChange;
    ReachedOK(cfg, start, steps);
    var w := Reached(cfg, start, steps);
    before, entry := StoreAfter(start, w.log, i), w.log[i];
    EntryAt(cfg, start, w.log, i);
    NextStore(start, w.log, i);
    HistoryKeepsStoreOK(cfg, start, w.log, i);
  }

  /** The captured documents arrive at most once. */
  lemma MetadataLandsOnce(cfg: Config, start: Store, p: Prepared, moves: seq<Move>, i: nat, j: nat, k: nat, l: nat)
    requires RunFrom(cfg, start, []) && JointRun(cfg, start, p, READY, moves)
    requires var s := JointAfter(cfg, start, p, READY, moves);
      && Landed(cfg, start, s, i, k) && Landed(cfg, start, s, j, l)
      && s.issued[k].point.WritingMetadata? && s.issued[l].point.WritingMetadata?
    ensures i == j && k == l
  {
    hide RunFrom, Reached, WorldOK, JointRun, IssuedAs;
    ReadySystemOK(cfg, start, p);
    RunKeepsSystemOK(cfg, start, p, READY, moves);
    var s := JointAfter(cfg, start, p, READY, moves);
    OneMetadataIssue(s.issued, k, l);
    ReachedOK(cfg, start, s.steps);
    assert IssuedAs(cfg, p, Reached(cfg, start, s.steps), s.issued[k]);
    IssuedIsKnown(cfg, p, Reached(cfg, start, s.steps), s.issued[k]);
    WritesOnce(cfg, start, Reached(cfg, start, s.steps), s.issued[k].op, i, j);
  }

  lemma {:induction false} OneMetadataIssue(issued: seq<Issue>, k: nat, l: nat)
    requires MetadataIssues(issued) <= 1 && k < |issued| && l < |issued| && MetadataIssue(issued[k])
        && MetadataIssue(issued[l])
    ensures k == l
  {
    var n := |issued| - 1;
    if k < n && l < n {
      OneMetadataIssue(issued[..n], k, l);
    } else if k < n {
      SomeMetadataIssue(issued[..n], k);
    } else if l < n {
      SomeMetadataIssue(issued[..n], l);
    }
  }

  lemma {:induction false} SomeMetadataIssue(issued: seq<Issue>, k: nat)
    requires k < |issued| && MetadataIssue(issued[k])
    ensures MetadataIssues(issued) >= 1
  {
    if k < |issued| - 1 {
      SomeMetadataIssue(issued[..|issued| - 1], k);
    }
  }

  /** While the coordinator says that its write is committed, the update it issued last has returned its result. */
  lemma CommittedMeansSucceeded(cfg: Config, start: Store, p: Prepared, moves: seq<Move>)
    requires RunFrom(cfg, start, []) && JointRun(cfg, start, p, READY, moves)
    requires JointAfter(cfg, start, p, READY, moves).copy.writeState.Committed?
    ensures var s := JointAfter(cfg, start, p, READY, moves);
      s.issued != [] && Succeeded(Reached(cfg, start, s.steps), s.issued[|s.issued| - 1].op)
  {
    hide RunFrom, Reached, JointRun, IssuedAs, Succeeded;
    ReadySystemOK(cfg, start, p);
    RunKeepsSystemOK(cfg, start, p, READY, moves);
  }
}

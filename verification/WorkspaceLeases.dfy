/**
 Tabs creating, renaming, opening and deleting named workspaces: the directory's
 transactions in their creation order, one lock per workspace, and database
 deletions that no timeout can cancel.

 A caller may stop waiting for its transaction (`GiveUp`) or its deletion
 (`StopWaiting`), or vanish (`Crash`), while the request itself goes on; the
 browser settles transactions, and the deletions of one database, in the order
 they were made (sections 2.7 and 5.3 of the W3C Indexed Database API 3.0).
 */
module WorkspaceLeases {
  import opened Basics
  import opened WorkspaceDirectory

  type OpId = nat

  datatype Request =
    | Create(row: Row)
    | CreateEncrypted(row: Row)
    | Relabel(expected: Row, name: Text, at: nat)
    | Acquire(workspace: Text, exclusive: bool)
    | Remove(expected: Row, at: nat)

  datatype Phase =
    | Started
    | Locked                             // encrypted creation, holding the lock, before anything is written
    | Waiting(serial: nat, action: Action)
    | Leased
    | Erasing(row: Row)                  // removal, waiting for the database deletion
    | CleaningUp                         // failed encrypted creation, waiting for the database deletion
    | Finished(ok: bool)

  datatype Op = Op(request: Request, phase: Phase)

  datatype Tx = Tx(serial: nat, op: OpId, action: Action)

  datatype Erasure = Erasure(id: Text, op: OpId)

  /** `used` are identifiers ever chosen, `ever` the rows ever committed. */
  datatype World = World(
    rows: Rows, queue: seq<Tx>, next: nat, ops: map<OpId, Op>, erasures: seq<Erasure>, databases: set<Text>,
        used: set<Text>, ever: set<Row>)

  datatype Step =
    | Begin(op: OpId, request: Request)
    | Submit(op: OpId)
    | Lock(op: OpId)
    | Prepare(op: OpId, ok: bool, created: bool)
    | Settle(commits: bool)
    | GiveUp(op: OpId)
    | Erased(index: nat, ok: bool)
    | StopWaiting(op: OpId)
    | Populate(op: OpId)
    | Release(op: OpId)
    | Crash(op: OpId)

  function IdOf(request: Request): Text
  {
    match request
    case Create(row) => row.id
    case CreateEncrypted(row) => row.id
    case Relabel(expected, _, _) => expected.id
    case Acquire(id, _) => id
    case Remove(expected, _) => expected.id
  }

  predicate Creates(request: Request) { request.Create? || request.CreateEncrypted? }

  // ---------- Locks ----------

  predicate Holds(op: Op)
  {
    match op.request
    case Acquire(_, _) => op.phase.Waiting? || op.phase.Leased?
    case CreateEncrypted(_) => op.phase.Locked? || op.phase.Waiting? || op.phase.CleaningUp?
    case Remove(_, _) => op.phase.Waiting? || op.phase.Erasing?
    case _ => false
  }

  predicate Exclusive(request: Request) { request.Acquire? ==> request.exclusive }

  /** An `ifAvailable` request for this lock would be granted. */
  predicate Free(w: World, request: Request)
  {
    forall o :: o in w.ops && Holds(w.ops[o]) && IdOf(w.ops[o].request) == IdOf(request) ==>
      !Exclusive(request) && !Exclusive(w.ops[o].request)
  }

  // ---------- Steps ----------

  predicate Accepted(lower: Text -> Text, request: Request)
  {
    match request
    case Create(row) => Admitted(lower, Insert(row))
    case CreateEncrypted(row) => Admitted(lower, Insert(row))
    case Relabel(expected, name, at) => Admitted(lower, Rename(expected, name, at))
    case _ => true
  }

  predicate Enabled(lower: Text -> Text, w: World, step: Step)
  {
    match step
    case Begin(op, request) =>
        op !in w.ops && Accepted(lower, request) && (Creates(request) ==> IdOf(request) !in w.used)
    case Submit(op) =>
        op in w.ops && w.ops[op].phase.Started? && (w.ops[op].request.Create? || w.ops[op].request.Relabel?)
    case Lock(op) =>
        op in w.ops && w.ops[op].phase.Started? && !w.ops[op].request.Create? && !w.ops[op].request.Relabel?
    case Prepare(op, _, _) => op in w.ops && w.ops[op].phase.Locked? && w.ops[op].request.CreateEncrypted?
    case Settle(_) => w.queue != []
    case GiveUp(op) => op in w.ops && w.ops[op].phase.Waiting?
    case Erased(index, _) => index < |w.erasures| && forall j :: 0 <= j < index ==>
      w.erasures[j].id != w.erasures[index].id
    case StopWaiting(op) => op in w.ops && (w.ops[op].phase.Erasing? || w.ops[op].phase.CleaningUp?)
    case Populate(op) =>
        op in w.ops && (w.ops[op].phase.Leased? || (w.ops[op].phase.Locked? && w.ops[op].request.CreateEncrypted?))
    case Release(op) => op in w.ops && w.ops[op].phase.Leased?
    case Crash(op) => op in w.ops
  }

  function Moved(w: World, op: OpId, phase: Phase): World
    requires op in w.ops
  {
    w.(ops := w.ops[op := w.ops[op].(phase := phase)])
  }

  /** The operation opens a transaction and waits for it. */
  function Enqueued(w: World, op: OpId, action: Action): World
    requires op in w.ops
  {
    Moved(w, op, Waiting(w.next, action)).(queue := w.queue + [Tx(w.next, op, action)], next := w.next + 1)
  }

  function Erase(w: World, op: OpId, phase: Phase): World
    requires op in w.ops
  {
    Moved(w, op, phase).(erasures := w.erasures + [Erasure(IdOf(w.ops[op].request), op)])
  }

  /** What an operation does once its transaction committed (`ok`) or failed, was aborted, or was given up. */
  function Advanced(w: World, op: OpId, ok: bool): World
    requires op in w.ops && w.ops[op].phase.Waiting?
  {
    var request := w.ops[op].request;
    var id := IdOf(request);
    match request
    case Acquire(_, _) =>
        Moved(w, op, if ok && id in w.rows && w.rows[id].state == Ready then Leased else Finished(false))
    case Remove(_, _) =>
      if w.ops[op].phase.action.Mark? && ok && id in w.rows then Erase(w, op, Erasing(w.rows[id]))
      else Moved(w, op, Finished(ok))
    case CreateEncrypted(row) =>
      if w.ops[op].phase.action.Insert? then (if ok then Moved(w, op, Finished(true)) else Enqueued(w, op, List))
      else if !ok then Moved(w, op, Finished(false))
      else if id in w.rows then Moved(w, op, Finished(w.rows[id] == row))
      else Erase(w, op, CleaningUp)
    case _ => Moved(w, op, Finished(ok))
  }

  function Outcome(lower: Text -> Text, w: World, commits: bool): Option<Rows>
    requires w.queue != []
  {
    if commits then Applied(w.rows, lower, w.queue[0].action) else None
  }

  /** The oldest transaction commits its rows or is undone. */
  function Popped(lower: Text -> Text, w: World, commits: bool): World
    requires w.queue != []
  {
    var outcome := Outcome(lower, w, commits);
    var rows := if outcome.Some? then outcome.value else w.rows;
    w.(queue := w.queue[1..], rows := rows, ever := w.ever + rows.Values)
  }

  predicate Awaited(w: World, tx: Tx)
  {
    tx.op in w.ops && w.ops[tx.op].phase == Waiting(tx.serial, tx.action)
  }

  function Without<T>(s: seq<T>, i: nat): seq<T>
    requires i < |s|
  {
    s[..i] + s[i + 1..]
  }

  function DoErased(w: World, index: nat, ok: bool): World
    requires index < |w.erasures|
  {
    var erasure := w.erasures[index];
    var after :=
        w.(erasures := Without(w.erasures, index), databases := if ok then w.databases - {erasure.id} else w.databases);
    if erasure.op !in w.ops then after
    else if w.ops[erasure.op].phase.Erasing? && IdOf(w.ops[erasure.op].request) == erasure.id then
      if ok then Enqueued(after, erasure.op, Drop(w.ops[erasure.op].phase.row))
          else Moved(after, erasure.op, Finished(false))
    else if w.ops[erasure.op].phase.CleaningUp? then Moved(after, erasure.op, Finished(false))
    else after
  }

  function Do(lower: Text -> Text, w: World, step: Step): World
    requires Enabled(lower, w, step)
  {
    match step
    case Begin(op, request) =>
      w.(ops := w.ops[op := Op(request, Started)], used := if Creates(request) then w.used + {IdOf(request)}
         else w.used)
    case Submit(op) =>
      Enqueued(w, op, if w.ops[op].request.Create? then Insert(w.ops[op].request.row)
                      else Rename(w.ops[op].request.expected, w.ops[op].request.name, w.ops[op].request.at))
    case Lock(op) =>
      if !Free(w, w.ops[op].request) then Moved(w, op, Finished(false))
      else if w.ops[op].request.CreateEncrypted? then Moved(w, op, Locked)
      else Enqueued(w, op, if w.ops[op].request.Acquire? then List
                    else Mark(w.ops[op].request.expected, w.ops[op].request.at))
    case Prepare(op, ok, created) =>
      var prepared := if ok || created then w.(databases := w.databases + {IdOf(w.ops[op].request)}) else w;
      if ok then Enqueued(prepared, op, Insert(w.ops[op].request.row))
      else if created then Erase(prepared, op, CleaningUp)
      else Moved(w, op, Finished(false))
    case Settle(commits) =>
      var popped := Popped(lower, w, commits);
      if Awaited(w, w.queue[0]) then Advanced(popped, w.queue[0].op, Outcome(lower, w, commits).Some?) else popped
    case GiveUp(op) => Advanced(w, op, false)
    case Erased(index, ok) => DoErased(w, index, ok)
    case StopWaiting(op) => Moved(w, op, Finished(false))
    case Populate(op) => w.(databases := w.databases + {IdOf(w.ops[op].request)})
    case Release(op) => Moved(w, op, Finished(true))
    case Crash(op) => Moved(w, op, Finished(false))
  }

  ghost predicate Runs(lower: Text -> Text, w: World, steps: seq<Step>)
    decreases |steps|
  {
    steps == [] || (Enabled(lower, w, steps[0]) && Runs(lower, Do(lower, w, steps[0]), steps[1..]))
  }

  ghost function After(lower: Text -> Text, w: World, steps: seq<Step>): World
    requires Runs(lower, w, steps)
    decreases |steps|
  {
    if steps == [] then w else After(lower, Do(lower, w, steps[0]), steps[1..])
  }

  // ---------- Transactions as their callers see them ----------

  /**
   The exchange of an operation with its transaction `tx`: undecided, it is in the
   queue and awaited exactly while unanswered; prepared, it is the oldest and its
   change was accepted on the present rows.
   */
  ghost predicate Follows(lower: Text -> Text, w: World, tx: Tx, x: Exchange)
  {
    && x.fate == Fate.Open && w.queue != [] && w.queue[0] == tx
    && (Awaited(w, tx) <==> x.answer == Pending)
    && (x.prepared ==> Applied(w.rows, lower, tx.action).Some?)
  }

  /** The protocol step a signal is: the transaction settles, or its caller stops waiting. */
  function StepFor(tx: Tx, x: Exchange, signal: Signal): Option<Step>
  {
    match signal
    case Complete => Some(Settle(x.prepared))
    case Abort => Some(Settle(false))
    case Grace => if x.answer == Pending then Some(GiveUp(tx.op)) else None
    case _ => None
  }

  /**
   Each signal of a transaction is a step of the protocol: rows change exactly when
   a prepared transaction completes, and a waiting operation goes on with success
   exactly when its caller's answer is `Resolved`.
   */
  lemma SignalsAreSteps(lower: Text -> Text, w: World, tx: Tx, x: Exchange, signal: Signal)
    requires Follows(lower, w, tx, x) && Honest(x) && Allowed(x, signal) && StepFor(tx, x, signal).Some?
    ensures var step, after := StepFor(tx, x, signal).value, Signalled(x, signal);
      && Enabled(lower, w, step)
      && (step.Settle? ==> (Outcome(lower, w, step.commits).Some? <==> signal.Complete? && x.prepared))
      && (step.Settle? && x.answer == Pending ==>
            Do(lower, w, step) == Advanced(Popped(lower, w, step.commits), tx.op, after.answer == Resolved))
      && (step.Settle? && x.answer != Pending ==>
          Do(lower, w, step) == Popped(lower, w, step.commits) && after.answer == x.answer)
      && (step.GiveUp? ==> Do(lower, w, step) == Advanced(w, tx.op, false) && after.answer == Unconfirmed)
  {
  }

  // ---------- The invariant ----------

  predicate BeforeInsert(op: Op) { Creates(op.request) && (op.phase.Started? || op.phase.Locked?) }

  /** A row with this identifier may still be added. */
  ghost predicate InsertPending(w: World, id: Text)
  {
    || (exists i :: 0 <= i < |w.queue| && w.queue[i].action.Insert? && w.queue[i].action.row.id == id)
    || (exists o :: o in w.ops && BeforeInsert(w.ops[o]) && IdOf(w.ops[o].request) == id)
  }

  /** Never again a ready workspace: it is being deleted, or gone for good. */
  ghost predicate Doomed(w: World, id: Text)
  {
    id in w.used && (id in w.rows ==> w.rows[id].state == Deleting) && !InsertPending(w, id)
  }

  ghost predicate DirectoryOK(lower: Text -> Text, w: World)
  {
    Readable(w.rows) && NamesApart(w.rows, lower) && w.rows.Keys <= w.used
  }

  /** Each identifier is chosen by one creation, which inserts it at most once. */
  ghost predicate InsertsOK(lower: Text -> Text, w: World)
  {
    && (forall o :: o in w.ops ==> Accepted(lower, w.ops[o].request))
    && (forall o :: o in w.ops && Creates(w.ops[o].request) ==> IdOf(w.ops[o].request) in w.used)
    && (forall o, p :: o in w.ops && p in w.ops && o != p && Creates(w.ops[o].request) && Creates(w.ops[p].request) ==>
          IdOf(w.ops[o].request) != IdOf(w.ops[p].request))
    && (forall i :: 0 <= i < |w.queue| ==> Admitted(lower, w.queue[i].action))
    && (forall i :: 0 <= i < |w.queue| && w.queue[i].action.Insert? ==> InsertedBy(w, w.queue[i]))
    && (forall i, j :: 0 <= i < j < |w.queue| && w.queue[i].action.Insert? && w.queue[j].action.Insert? ==>
        w.queue[i].op != w.queue[j].op)
    && (forall id :: id in w.rows ==> !InsertPending(w, id))
  }

  ghost predicate InsertedBy(w: World, tx: Tx)
    requires tx.action.Insert?
  {
    tx.op in w.ops && Creates(w.ops[tx.op].request) && w.ops[tx.op].request.row == tx.action.row
        && !BeforeInsert(w.ops[tx.op])
  }

  /** Whatever is being erased or dropped is doomed, and a pending drop follows the end of the data. */
  ghost predicate DoomOK(w: World)
  {
    && (forall i :: 0 <= i < |w.erasures| ==> Doomed(w, w.erasures[i].id))
    && (forall i :: 0 <= i < |w.queue| && w.queue[i].action.Drop? ==>
          Doomed(w, w.queue[i].action.expected.id) && w.queue[i].action.expected.id !in w.databases)
    && (forall o :: o in w.ops && w.ops[o].phase.Erasing? ==>
          w.ops[o].request.Remove? && w.ops[o].phase.row.id == IdOf(w.ops[o].request)
              && w.ops[o].phase.row.state == Deleting
          && Doomed(w, IdOf(w.ops[o].request)))
  }

  predicate BothHold(a: Op, b: Op) { Holds(a) && Holds(b) && IdOf(a.request) == IdOf(b.request) }

  /** A lock held exclusively is held by one operation. */
  ghost predicate LocksOK(w: World)
  {
    forall o, p :: o in w.ops && p in w.ops && o != p && BothHold(w.ops[o], w.ops[p]) ==> !Exclusive(w.ops[o].request)
  }

  predicate Marks(tx: Tx, id: Text) { tx.action.Mark? && tx.action.expected.id == id }

  /** Transactions are settled in order, so what a check reads is later than any earlier mark or insert. */
  ghost predicate OrderOK(w: World)
  {
    && (forall i, j :: 0 <= i < j < |w.queue| ==> w.queue[i].serial < w.queue[j].serial)
    && (forall i :: 0 <= i < |w.queue| ==> w.queue[i].serial < w.next)
    && (forall o :: o in w.ops ==> PhaseOK(w, w.ops[o]))
  }

  ghost predicate PhaseOK(w: World, op: Op)
  {
    match op.phase
    case Locked => op.request.CreateEncrypted?
    case Waiting(serial, action) =>
      match op.request {
        case Acquire(id, _) => action.List? && forall i :: 0 <= i < |w.queue| && Marks(w.queue[i], id) ==>
          w.queue[i].serial < serial
        case Remove(expected, _) => (action.Mark? || action.Drop?) && action.expected.id == expected.id
        case CreateEncrypted(row) =>
          action == Insert(row)
          || (action.List? && forall i ::
              0 <= i < |w.queue| && w.queue[i].action.Insert? && w.queue[i].action.row.id == row.id ==>
                w.queue[i].serial < serial)
        case _ => true
      }
    case Leased =>
      && op.request.Acquire?
      && op.request.workspace in w.rows && w.rows[op.request.workspace].state == Ready
      && forall i :: 0 <= i < |w.queue| ==> !Marks(w.queue[i], op.request.workspace)
    case Erasing(_) => op.request.Remove?
    case CleaningUp => op.request.CreateEncrypted?
    case _ => true
  }

  /** No row recurs: one identifier and revision always meant one row, and the current row is the latest. */
  ghost predicate HistoryOK(w: World)
  {
    && w.rows.Values <= w.ever
    && (forall r :: r in w.ever ==> r.id in w.used && !InsertPending(w, r.id))
    && (forall r, s :: r in w.ever && s in w.ever && r.id == s.id && r.revision == s.revision ==> r == s)
    && (forall r :: r in w.ever && r.id in w.rows ==> r.revision <= w.rows[r.id].revision)
  }

  ghost predicate WorldOK(lower: Text -> Text, w: World)
  {
    DirectoryOK(lower, w) && InsertsOK(lower, w) && DoomOK(w) && LocksOK(w) && OrderOK(w) && HistoryOK(w)
  }
}

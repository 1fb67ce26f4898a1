/**
 Every step of the directory protocol keeps its invariant, and what follows for
 held leases, tombstones and stale changes.
 */
module WorkspaceLeaseSafety {
  import opened Basics
  import opened WorkspaceDirectory
  import opened WorkspaceLeases

  // ---------- Building blocks of steps ----------

  /** `after` may add no identifier that `before` could not. */
  ghost predicate NoNewInserts(before: World, after: World)
  {
    forall id :: InsertPending(after, id) ==> InsertPending(before, id)
  }

  lemma DoomedStays(w: World, after: World, id: Text)
    requires NoNewInserts(w, after) && Doomed(w, id) && w.used <= after.used && after.rows == w.rows
    ensures Doomed(after, id)
  {
  }

  lemma MovedInserts(w: World, op: OpId, phase: Phase)
    requires op in w.ops && (BeforeInsert(w.ops[op].(phase := phase)) ==> BeforeInsert(w.ops[op]))
    ensures NoNewInserts(w, Moved(w, op, phase))
  {
  }

  /** An operation changes phase without touching shared state. */
  ghost predicate MayMove(w: World, op: OpId, phase: Phase)
  {
    && op in w.ops
    && var moved := w.ops[op].(phase := phase);
    && (BeforeInsert(moved) ==> BeforeInsert(w.ops[op]))
    && (Holds(moved) ==> Holds(w.ops[op]) || Free(w, moved.request))
    && PhaseOK(w, moved)
    && (phase.Erasing? ==>
        moved.request.Remove? && phase.row.id == IdOf(moved.request) && phase.row.state == Deleting
            && Doomed(w, IdOf(moved.request)))
  }

  lemma MovedLocks(w: World, op: OpId, phase: Phase)
    requires LocksOK(w) && MayMove(w, op, phase)
    ensures LocksOK(Moved(w, op, phase))
  {
  }

  lemma MovedDoom(w: World, op: OpId, phase: Phase)
    requires DoomOK(w) && MayMove(w, op, phase)
    ensures DoomOK(Moved(w, op, phase))
  {
    hide InsertPending, PhaseOK, Holds, Free, Doomed;
    var after := Moved(w, op, phase);
    MovedInserts(w, op, phase);
    forall id | Doomed(w, id) ensures Doomed(after, id) {
      DoomedStays(w, after, id);
    }
  }

  lemma MovedInsertsOK(lower: Text -> Text, w: World, op: OpId, phase: Phase)
    requires InsertsOK(lower, w) && MayMove(w, op, phase)
    ensures InsertsOK(lower, Moved(w, op, phase))
  {
    hide InsertPending, PhaseOK, Holds, Free, Doomed, Admitted, Accepted;
    var after := Moved(w, op, phase);
    MovedInserts(w, op, phase);
    forall i | 0 <= i < |after.queue| && after.queue[i].action.Insert? ensures InsertedBy(after, after.queue[i]) {
      assert InsertedBy(w, w.queue[i]);
    }
  }

  lemma MovedOrder(w: World, op: OpId, phase: Phase)
    requires OrderOK(w) && MayMove(w, op, phase)
    ensures OrderOK(Moved(w, op, phase))
  {
  }

  lemma MovedOK(lower: Text -> Text, w: World, op: OpId, phase: Phase)
    requires WorldOK(lower, w) && MayMove(w, op, phase)
    ensures WorldOK(lower, Moved(w, op, phase))
  {
    hide InsertsOK, DoomOK, LocksOK, OrderOK, InsertPending, Readable, NamesApart, PhaseOK, Doomed, Holds, Free;
    MovedInserts(w, op, phase);
    MovedLocks(w, op, phase);
    MovedDoom(w, op, phase);
    MovedInsertsOK(lower, w, op, phase);
    MovedOrder(w, op, phase);
  }

  /** What an operation may ask of the directory, and when. */
  ghost predicate MayAsk(lower: Text -> Text, w: World, op: OpId, action: Action)
  {
    && op in w.ops && Admitted(lower, action)
    && var request := w.ops[op].request;
    && (action.Insert? ==> BeforeInsert(w.ops[op]) && action.row == request.row)
    && (action.Drop? ==> Doomed(w, action.expected.id) && action.expected.id !in w.databases)
    && (action.Mark? ==> forall o :: o in w.ops && o != op && Holds(w.ops[o]) ==>
        IdOf(w.ops[o].request) != action.expected.id)
    && (Holds(Op(request, Waiting(w.next, action))) ==> Holds(w.ops[op]) || Free(w, request))
    && match request {
         case Acquire(_, _) => action.List?
         case Remove(expected, _) => (action.Mark? || action.Drop?) && action.expected.id == expected.id
         case CreateEncrypted(row) => action == Insert(row) || action.List?
         case _ => true
       }
  }

  /** Opening an insert transaction only moves the pending insert from the operation to the queue. */
  lemma EnqueuedInserts(lower: Text -> Text, w: World, op: OpId, action: Action)
    requires MayAsk(lower, w, op, action)
    ensures NoNewInserts(w, Enqueued(w, op, action))
  {
  }

  lemma EnqueuedInsertsOK(lower: Text -> Text, w: World, op: OpId, action: Action)
    requires InsertsOK(lower, w) && MayAsk(lower, w, op, action)
    ensures InsertsOK(lower, Enqueued(w, op, action))
  {
    hide InsertPending, Doomed, Holds, Free, Admitted, Accepted;
    var after := Enqueued(w, op, action);
    EnqueuedInserts(lower, w, op, action);
    forall i | 0 <= i < |after.queue| && after.queue[i].action.Insert?
      ensures InsertedBy(after, after.queue[i])
      ensures i < |w.queue| && action.Insert? ==> after.queue[i].op != op
    {
      if i < |w.queue| {
        assert after.queue[i] == w.queue[i];
        assert InsertedBy(w, w.queue[i]);
      }
    }
  }

  lemma EnqueuedDoom(lower: Text -> Text, w: World, op: OpId, action: Action)
    requires DoomOK(w) && MayAsk(lower, w, op, action)
    ensures DoomOK(Enqueued(w, op, action))
  {
    hide InsertPending, Holds, Free, Doomed, Admitted;
    var after := Enqueued(w, op, action);
    EnqueuedInserts(lower, w, op, action);
    forall id | Doomed(w, id) ensures Doomed(after, id) {
      DoomedStays(w, after, id);
    }
    forall i | 0 <= i < |after.queue| && after.queue[i].action.Drop?
      ensures Doomed(after, after.queue[i].action.expected.id) && after.queue[i].action.expected.id !in after.databases
    {
      assert i < |w.queue| ==> after.queue[i] == w.queue[i];
    }
  }

  lemma EnqueuedLocks(lower: Text -> Text, w: World, op: OpId, action: Action)
    requires LocksOK(w) && MayAsk(lower, w, op, action)
    ensures LocksOK(Enqueued(w, op, action))
  {
  }

  lemma EnqueuedOrder(lower: Text -> Text, w: World, op: OpId, action: Action)
    requires OrderOK(w) && InsertsOK(lower, w) && MayAsk(lower, w, op, action)
    ensures OrderOK(Enqueued(w, op, action))
  {
    hide Doomed, Admitted, Accepted, Free, InsertPending;
    var after := Enqueued(w, op, action);
    assert forall i :: 0 <= i < |w.queue| ==> after.queue[i] == w.queue[i];
    forall o | o in after.ops ensures PhaseOK(after, after.ops[o]) {
      if o != op {
        assert PhaseOK(w, w.ops[o]);
      }
    }
  }

  lemma EnqueuedOK(lower: Text -> Text, w: World, op: OpId, action: Action)
    requires WorldOK(lower, w) && MayAsk(lower, w, op, action)
    ensures WorldOK(lower, Enqueued(w, op, action))
  {
    hide InsertsOK, DoomOK, LocksOK, OrderOK, InsertPending, Readable, NamesApart, Doomed, Holds, Free, Admitted;
    EnqueuedInserts(lower, w, op, action);
    EnqueuedInsertsOK(lower, w, op, action);
    EnqueuedDoom(lower, w, op, action);
    EnqueuedLocks(lower, w, op, action);
    EnqueuedOrder(lower, w, op, action);
  }

  /** A deletion is issued for a doomed workspace. */
  lemma EraseOK(lower: Text -> Text, w: World, op: OpId, phase: Phase)
    requires WorldOK(lower, w) && MayMove(w, op, phase) && Doomed(w, IdOf(w.ops[op].request))
    ensures WorldOK(lower, Erase(w, op, phase))
  {
    hide InsertsOK, LocksOK, OrderOK, HistoryOK, DirectoryOK, DoomOK, InsertPending, PhaseOK, Holds, Free, Doomed;
    MovedOK(lower, w, op, phase);
    MovedInserts(w, op, phase);
    var id := IdOf(w.ops[op].request);
    var moved := Moved(w, op, phase);
    DoomedStays(w, moved, id);
    MoreErasures(lower, moved, Erasure(id, op));
  }

  lemma SameInserts(w: World, after: World)
    requires after.ops == w.ops && after.queue == w.queue
    ensures NoNewInserts(w, after) && NoNewInserts(after, w)
  {
  }

  lemma MoreErasures(lower: Text -> Text, w: World, erasure: Erasure)
    requires WorldOK(lower, w) && Doomed(w, erasure.id)
    ensures WorldOK(lower, w.(erasures := w.erasures + [erasure]))
  {
    hide InsertPending, Holds, Free, Marks, Readable, NamesApart, Accepted, Admitted;
    SameInserts(w, w.(erasures := w.erasures + [erasure]));
  }

  // ---------- A transaction is settled ----------

  lemma PoppedInserts(lower: Text -> Text, w: World, commits: bool)
    requires w.queue != []
    ensures NoNewInserts(w, Popped(lower, w, commits))
  {
  }

  /** Once its insert is settled, an identifier is never inserted again. */
  lemma InsertedOnce(lower: Text -> Text, w: World, commits: bool)
    requires InsertsOK(lower, w) && w.queue != [] && w.queue[0].action.Insert?
    ensures !InsertPending(Popped(lower, w, commits), w.queue[0].action.row.id)
  {
  }

  lemma HeadIsAdmitted(lower: Text -> Text, w: World)
    requires InsertsOK(lower, w) && w.queue != []
    ensures Admitted(lower, w.queue[0].action)
    ensures w.queue[0].action.Insert? ==>
      w.queue[0].action.row.id in w.used && InsertPending(w, w.queue[0].action.row.id)
  {
  }

  lemma PoppedDirectory(lower: Text -> Text, w: World, commits: bool)
    requires DirectoryOK(lower, w) && InsertsOK(lower, w) && w.queue != []
    ensures DirectoryOK(lower, Popped(lower, w, commits))
  {
    hide Readable, NamesApart, InsertPending, InsertsOK, Admitted;
    HeadIsAdmitted(lower, w);
    if Outcome(lower, w, commits).Some? {
      ActionsKeepDirectoryReadable(w.rows, lower, w.queue[0].action);
      KeysAfter(w.rows, lower, w.queue[0].action);
    }
  }

  lemma KeysAfter(rows: Rows, lower: Text -> Text, action: Action)
    requires Applied(rows, lower, action).Some?
    ensures Applied(rows, lower, action).value.Keys <= rows.Keys + if action.Insert? then {action.row.id} else {}
  {
  }

  lemma PoppedInsertsOK(lower: Text -> Text, w: World, commits: bool)
    requires InsertsOK(lower, w) && w.queue != []
    ensures InsertsOK(lower, Popped(lower, w, commits))
  {
    hide InsertPending, Admitted, Accepted, Applied;
    var after := Popped(lower, w, commits);
    PoppedInserts(lower, w, commits);
    forall i | 0 <= i < |after.queue| ensures after.queue[i] == w.queue[i + 1] {
    }
    forall i | 0 <= i < |after.queue| && after.queue[i].action.Insert? ensures InsertedBy(after, after.queue[i]) {
      assert InsertedBy(w, w.queue[i + 1]);
    }
    forall id | id in after.rows ensures !InsertPending(after, id) {
      if id !in w.rows {
        KeysAfter(w.rows, lower, w.queue[0].action);
        InsertedOnce(lower, w, commits);
      }
    }
  }

  /** Settling any transaction leaves a doomed workspace doomed. */
  lemma PoppedDooms(lower: Text -> Text, w: World, commits: bool, id: Text)
    requires InsertsOK(lower, w) && w.queue != [] && Doomed(w, id)
    ensures Doomed(Popped(lower, w, commits), id)
  {
    hide InsertPending, Admitted, Accepted, Applied;
    PoppedInserts(lower, w, commits);
    HeadIsAdmitted(lower, w);
    if Outcome(lower, w, commits).Some? {
      KeysAfter(w.rows, lower, w.queue[0].action);
      if id in w.rows {
        RowsOnlyAdvance(w.rows, lower, w.queue[0].action, id);
      }
    }
  }

  lemma PoppedDoom(lower: Text -> Text, w: World, commits: bool)
    requires InsertsOK(lower, w) && DoomOK(w) && w.queue != []
    ensures DoomOK(Popped(lower, w, commits))
  {
    hide InsertsOK, Doomed, Applied;
    var after := Popped(lower, w, commits);
    forall id | Doomed(w, id) ensures Doomed(after, id) {
      PoppedDooms(lower, w, commits, id);
    }
    forall i | 0 <= i < |after.queue| ensures after.queue[i] == w.queue[i + 1] {
    }
  }

  /** A held lease sees its row stay ready. */
  lemma LeaseSurvives(lower: Text -> Text, w: World, commits: bool, o: OpId)
    requires InsertsOK(lower, w) && DoomOK(w) && OrderOK(w) && w.queue != []
    requires o in w.ops && w.ops[o].phase.Leased?
    ensures var id := w.ops[o].request.workspace;
      w.ops[o].request.Acquire? && id in Popped(lower, w, commits).rows
          && Popped(lower, w, commits).rows[id].state == Ready
  {
    hide InsertsOK, Admitted, Applied;
    assert PhaseOK(w, w.ops[o]);
    var id := w.ops[o].request.workspace;
    HeadIsAdmitted(lower, w);
    if Outcome(lower, w, commits).Some? {
      RowsOnlyAdvance(w.rows, lower, w.queue[0].action, id);
      StateFollowsMark(w.rows, lower, w.queue[0].action, id);
      assert !Marks(w.queue[0], id);
    }
  }

  lemma StateFollowsMark(rows: Rows, lower: Text -> Text, action: Action, id: Text)
    requires Applied(rows, lower, action).Some? && id in rows && id in Applied(rows, lower, action).value
    requires !(action.Mark? && action.expected.id == id)
    ensures Applied(rows, lower, action).value[id].state == rows[id].state
  {
  }

  lemma PoppedOrder(lower: Text -> Text, w: World, commits: bool)
    requires InsertsOK(lower, w) && DoomOK(w) && OrderOK(w) && w.queue != []
    ensures OrderOK(Popped(lower, w, commits))
  {
    hide InsertsOK, DoomOK, Applied, Marks;
    var after := Popped(lower, w, commits);
    forall i | 0 <= i < |after.queue| ensures after.queue[i] == w.queue[i + 1] {
    }
    forall o | o in after.ops ensures PhaseOK(after, after.ops[o]) {
      assert PhaseOK(w, w.ops[o]);
      if w.ops[o].phase.Leased? {
        LeaseSurvives(lower, w, commits, o);
      }
    }
  }

  /** A row that changed is new under its identifier and revision. */
  lemma PoppedRow(lower: Text -> Text, w: World, commits: bool, id: Text)
    requires DirectoryOK(lower, w) && InsertsOK(lower, w) && HistoryOK(w) && w.queue != []
    requires id in Popped(lower, w, commits).rows
    ensures var row := Popped(lower, w, commits).rows[id];
      row.id == id && id in w.used
      && (row in w.ever || forall r :: r in w.ever && r.id == id ==> r.revision < row.revision)
      && (forall r :: r in w.ever && r.id == id ==> r.revision <= row.revision)
  {
    hide NamesApart, InsertPending, Admitted, Accepted, Applied, InsertsOK;
    PoppedDirectory(lower, w, commits);
    HeadIsAdmitted(lower, w);
    if Outcome(lower, w, commits).Some? {
      KeysAfter(w.rows, lower, w.queue[0].action);
      if id in w.rows {
        RowsOnlyAdvance(w.rows, lower, w.queue[0].action, id);
      }
    }
    if id in w.rows {
      assert w.rows[id] in w.rows.Values;
    }
  }

  lemma PoppedHistory(lower: Text -> Text, w: World, commits: bool)
    requires DirectoryOK(lower, w) && InsertsOK(lower, w) && HistoryOK(w) && w.queue != []
    ensures HistoryOK(Popped(lower, w, commits))
  {
    hide DirectoryOK, InsertPending, Admitted, Accepted, Applied, InsertsOK;
    var after := Popped(lower, w, commits);
    PoppedInserts(lower, w, commits);
    PoppedInsertsOK(lower, w, commits);
    forall r | r in after.ever && r !in w.ever
      ensures r.id in after.rows && after.rows[r.id] == r && r.id in w.used && !InsertPending(after, r.id)
      ensures forall s :: s in w.ever && s.id == r.id ==> s.revision < r.revision
    {
      var id :| id in after.rows && after.rows[id] == r;
      PoppedRow(lower, w, commits, id);
      NotPending(lower, after, id);
    }
    forall r | r in w.ever && r.id in after.rows ensures r.revision <= after.rows[r.id].revision {
      PoppedRow(lower, w, commits, r.id);
    }
  }

  lemma NotPending(lower: Text -> Text, w: World, id: Text)
    requires InsertsOK(lower, w) && id in w.rows
    ensures !InsertPending(w, id)
  {
  }

  lemma PoppedOK(lower: Text -> Text, w: World, commits: bool)
    requires WorldOK(lower, w) && w.queue != []
    ensures WorldOK(lower, Popped(lower, w, commits))
  {
    hide InsertsOK, DoomOK, OrderOK, HistoryOK, DirectoryOK, Applied;
    PoppedDirectory(lower, w, commits);
    PoppedInsertsOK(lower, w, commits);
    PoppedDoom(lower, w, commits);
    PoppedOrder(lower, w, commits);
    PoppedHistory(lower, w, commits);
  }

  // ---------- Steps ----------

  lemma FinishOK(lower: Text -> Text, w: World, op: OpId, ok: bool)
    requires WorldOK(lower, w) && op in w.ops
    ensures WorldOK(lower, Moved(w, op, Finished(ok)))
  {
    hide WorldOK, Free, Doomed;
    MovedOK(lower, w, op, Finished(ok));
  }

  /**
   What an operation may conclude from a transaction that committed: everything
   older is settled, and a mark took effect.
   */
  ghost predicate JustSettled(w: World, op: OpId)
  {
    && op in w.ops && w.ops[op].phase.Waiting?
    && (forall i :: 0 <= i < |w.queue| ==> w.queue[i].serial > w.ops[op].phase.serial)
    && (w.ops[op].phase.action.Mark? ==>
          var id := w.ops[op].phase.action.expected.id; id in w.rows && w.rows[id].state == Deleting)
  }

  lemma LeaseGranted(lower: Text -> Text, w: World, op: OpId)
    requires WorldOK(lower, w) && JustSettled(w, op) && w.ops[op].request.Acquire?
    requires var id := w.ops[op].request.workspace; id in w.rows && w.rows[id].state == Ready
    ensures WorldOK(lower, Moved(w, op, Leased))
  {
    hide InsertsOK, DoomOK, LocksOK, HistoryOK, DirectoryOK, Free, Doomed, Marks;
    assert PhaseOK(w, w.ops[op]);
    MovedOK(lower, w, op, Leased);
  }

  lemma ErasureOrdered(lower: Text -> Text, w: World, op: OpId)
    requires WorldOK(lower, w) && JustSettled(w, op) && w.ops[op].request.Remove? && w.ops[op].phase.action.Mark?
    ensures var id := IdOf(w.ops[op].request); id in w.rows && WorldOK(lower, Erase(w, op, Erasing(w.rows[id])))
  {
    hide DoomOK, LocksOK, HistoryOK, Free, Marks, InsertPending, Readable, NamesApart, Admitted, Accepted;
    assert PhaseOK(w, w.ops[op]);
    var id := IdOf(w.ops[op].request);
    NotPending(lower, w, id);
    assert w.rows[id].id == id by {
      RowIsFiled(lower, w, id);
    }
    EraseOK(lower, w, op, Erasing(w.rows[id]));
  }

  lemma RowIsFiled(lower: Text -> Text, w: World, id: Text)
    requires DirectoryOK(lower, w) && id in w.rows
    ensures w.rows[id].id == id && id in w.used
  {
  }

  /** A reconciliation that does not find its row may remove the database: the insert can no longer land. */
  lemma CleanupOrdered(lower: Text -> Text, w: World, op: OpId)
    requires WorldOK(lower, w) && JustSettled(w, op) && w.ops[op].request.CreateEncrypted?
        && w.ops[op].phase.action.List?
    requires IdOf(w.ops[op].request) !in w.rows
    ensures WorldOK(lower, Erase(w, op, CleaningUp))
  {
    hide DoomOK, LocksOK, HistoryOK, DirectoryOK, Free, Marks, Admitted, Accepted;
    assert PhaseOK(w, w.ops[op]);
    var id := IdOf(w.ops[op].request);
    assert Doomed(w, id);
    EraseOK(lower, w, op, CleaningUp);
  }

  lemma AskListOK(lower: Text -> Text, w: World, op: OpId)
    requires WorldOK(lower, w) && op in w.ops && w.ops[op].request.CreateEncrypted? && w.ops[op].phase.Waiting?
    ensures WorldOK(lower, Enqueued(w, op, List))
  {
    hide WorldOK, Free, Doomed;
    EnqueuedOK(lower, w, op, List);
  }

  lemma AdvancedOK(lower: Text -> Text, w: World, op: OpId, ok: bool)
    requires WorldOK(lower, w) && op in w.ops && w.ops[op].phase.Waiting?
    requires ok ==> JustSettled(w, op)
    ensures WorldOK(lower, Advanced(w, op, ok))
  {
    hide WorldOK, JustSettled, Erase, Enqueued, Moved;
    var request := w.ops[op].request;
    var id := IdOf(request);
    assert WorldOK(lower, Moved(w, op, Finished(ok))) by {
      FinishOK(lower, w, op, ok);
    }
    assert WorldOK(lower, Moved(w, op, Finished(false))) by {
      FinishOK(lower, w, op, false);
    }
    match request {
      case Acquire(_, _) =>
        if ok && id in w.rows && w.rows[id].state == Ready {
          LeaseGranted(lower, w, op);
        }
      case Remove(_, _) =>
        if w.ops[op].phase.action.Mark? && ok {
          ErasureOrdered(lower, w, op);
        }
      case CreateEncrypted(row) =>
        if w.ops[op].phase.action.Insert? {
          if ok {
            FinishOK(lower, w, op, true);
          } else {
            AskListOK(lower, w, op);
          }
        } else if ok {
          WaitsForList(lower, w, op);
          if id in w.rows {
            FinishOK(lower, w, op, w.rows[id] == row);
          } else {
            CleanupOrdered(lower, w, op);
          }
        }
      case _ =>
    }
  }

  lemma WaitsForList(lower: Text -> Text, w: World, op: OpId)
    requires WorldOK(lower, w) && op in w.ops && w.ops[op].phase.Waiting? && w.ops[op].request.CreateEncrypted?
        && !w.ops[op].phase.action.Insert?
    ensures w.ops[op].phase.action.List?
  {
  }

  lemma SettledFacts(lower: Text -> Text, w: World)
    requires WorldOK(lower, w) && w.queue != [] && Awaited(w, w.queue[0]) && Outcome(lower, w, true).Some?
    ensures JustSettled(Popped(lower, w, true), w.queue[0].op)
  {
    hide InsertsOK, DoomOK, LocksOK, HistoryOK, DirectoryOK, PhaseOK, Readable, NameTaken, ValidRow;
    var after := Popped(lower, w, true);
    forall i | 0 <= i < |after.queue| ensures after.queue[i].serial > w.queue[0].serial {
      assert after.queue[i] == w.queue[i + 1];
    }
  }

  lemma SettleOK(lower: Text -> Text, w: World, commits: bool)
    requires WorldOK(lower, w) && w.queue != []
    ensures WorldOK(lower, Do(lower, w, Settle(commits)))
  {
    hide WorldOK, Advanced, Applied;
    PoppedOK(lower, w, commits);
    if Awaited(w, w.queue[0]) {
      if Outcome(lower, w, commits).Some? {
        SettledFacts(lower, w);
      }
      AdvancedOK(lower, Popped(lower, w, commits), w.queue[0].op, Outcome(lower, w, commits).Some?);
    }
  }

  /** Only the identifier a creation has just chosen becomes insertable. */
  lemma BegunInserts(lower: Text -> Text, w: World, op: OpId, request: Request)
    requires Enabled(lower, w, Begin(op, request))
    ensures var after := Do(lower, w, Begin(op, request));
      forall id :: InsertPending(after, id) ==> InsertPending(w, id) || (Creates(request) && id == IdOf(request))
  {
  }

  lemma BeginOK(lower: Text -> Text, w: World, op: OpId, request: Request)
    requires WorldOK(lower, w) && Enabled(lower, w, Begin(op, request))
    ensures WorldOK(lower, Do(lower, w, Begin(op, request)))
  {
    hide Readable, NamesApart, Admitted, Marks, InsertPending, Accepted;
    var after := Do(lower, w, Begin(op, request));
    BegunInserts(lower, w, op, request);
    BegunOrder(lower, w, op, request);
    BegunDoom(lower, w, op, request);
    BegunInsertsOK(lower, w, op, request);
    forall r | r in after.ever ensures r.id in after.used && !InsertPending(after, r.id) {
      assert r.id in w.used;
    }
  }

  lemma BegunOrder(lower: Text -> Text, w: World, op: OpId, request: Request)
    requires OrderOK(w) && LocksOK(w) && Enabled(lower, w, Begin(op, request))
    ensures OrderOK(Do(lower, w, Begin(op, request))) && LocksOK(Do(lower, w, Begin(op, request)))
  {
    hide Marks, Accepted;
    var after := Do(lower, w, Begin(op, request));
    forall o | o in after.ops ensures PhaseOK(after, after.ops[o]) {
      assert o != op ==> PhaseOK(w, w.ops[o]);
    }
    forall o, p | o in after.ops && p in after.ops && o != p && BothHold(after.ops[o], after.ops[p])
      ensures !Exclusive(after.ops[o].request)
    {
      assert BothHold(w.ops[o], w.ops[p]);
    }
  }

  lemma BegunDoom(lower: Text -> Text, w: World, op: OpId, request: Request)
    requires DoomOK(w) && Enabled(lower, w, Begin(op, request))
    ensures DoomOK(Do(lower, w, Begin(op, request)))
  {
    hide InsertPending, Accepted;
    var after := Do(lower, w, Begin(op, request));
    BegunInserts(lower, w, op, request);
    forall id | Doomed(w, id) ensures Doomed(after, id) {
    }
    hide Doomed;
  }

  lemma BegunInsertsOK(lower: Text -> Text, w: World, op: OpId, request: Request)
    requires InsertsOK(lower, w) && DirectoryOK(lower, w) && Enabled(lower, w, Begin(op, request))
    ensures InsertsOK(lower, Do(lower, w, Begin(op, request)))
  {
    hide InsertPending, Accepted, Admitted, Readable, NamesApart;
    var after := Do(lower, w, Begin(op, request));
    BegunInserts(lower, w, op, request);
    forall i | 0 <= i < |after.queue| && after.queue[i].action.Insert? ensures InsertedBy(after, after.queue[i]) {
      assert InsertedBy(w, w.queue[i]);
    }
  }

  lemma SubmitOK(lower: Text -> Text, w: World, op: OpId)
    requires WorldOK(lower, w) && Enabled(lower, w, Submit(op))
    ensures WorldOK(lower, Do(lower, w, Submit(op)))
  {
    hide DirectoryOK, DoomOK, LocksOK, OrderOK, HistoryOK, InsertPending, Admitted;
    var request := w.ops[op].request;
    assert Accepted(lower, request);
    EnqueuedOK(lower, w, op, if request.Create? then Insert(request.row)
               else Rename(request.expected, request.name, request.at));
  }

  lemma LockOK(lower: Text -> Text, w: World, op: OpId)
    requires WorldOK(lower, w) && Enabled(lower, w, Lock(op))
    ensures WorldOK(lower, Do(lower, w, Lock(op)))
  {
    hide DirectoryOK, InsertsOK, DoomOK, LocksOK, OrderOK, HistoryOK, InsertPending;
    var request := w.ops[op].request;
    if !Free(w, request) {
      FinishOK(lower, w, op, false);
    } else if request.CreateEncrypted? {
      MovedOK(lower, w, op, Locked);
    } else {
      EnqueuedOK(lower, w, op, if request.Acquire? then List else Mark(request.expected, request.at));
    }
  }

  /** Creating the database of a workspace that may still be inserted endangers no pending drop. */
  lemma DatabaseOK(lower: Text -> Text, w: World, id: Text)
    requires WorldOK(lower, w) && !Doomed(w, id)
    ensures WorldOK(lower, w.(databases := w.databases + {id}))
  {
    hide InsertPending, Holds, Free, Marks, Readable, NamesApart, Accepted, Admitted;
    SameInserts(w, w.(databases := w.databases + {id}));
  }

  lemma InsertableIsNotDoomed(w: World, op: OpId)
    requires op in w.ops && BeforeInsert(w.ops[op])
    ensures !Doomed(w, IdOf(w.ops[op].request)) && InsertPending(w, IdOf(w.ops[op].request))
  {
  }

  lemma PrepareOK(lower: Text -> Text, w: World, op: OpId, ok: bool, created: bool)
    requires WorldOK(lower, w) && Enabled(lower, w, Prepare(op, ok, created))
    ensures WorldOK(lower, Do(lower, w, Prepare(op, ok, created)))
  {
    hide DirectoryOK, DoomOK, LocksOK, OrderOK, HistoryOK, InsertPending, Admitted, Free;
    var id := IdOf(w.ops[op].request);
    InsertableIsNotDoomed(w, op);
    DatabaseOK(lower, w, id);
    var prepared := w.(databases := w.databases + {id});
    assert Accepted(lower, w.ops[op].request);
    if ok {
      EnqueuedOK(lower, prepared, op, Insert(w.ops[op].request.row));
    } else if created {
      NothingInsertedYet(lower, prepared, op);
      EraseAfterMove(lower, prepared, op);
    } else {
      FinishOK(lower, w, op, false);
    }
  }

  /** A creation that stops before its insert leaves an identifier nobody can insert any more. */
  lemma NothingInsertedYet(lower: Text -> Text, w: World, op: OpId)
    requires WorldOK(lower, w) && op in w.ops && BeforeInsert(w.ops[op]) && w.ops[op].request.CreateEncrypted?
    ensures Doomed(Moved(w, op, CleaningUp), IdOf(w.ops[op].request))
  {
    hide DoomOK, LocksOK, OrderOK, HistoryOK, Readable, NamesApart, Accepted, Admitted;
    var after := Moved(w, op, CleaningUp);
    var id := IdOf(w.ops[op].request);
    InsertableIsNotDoomed(w, op);
    forall i | 0 <= i < |after.queue| && after.queue[i].action.Insert? ensures after.queue[i].action.row.id != id {
      assert InsertedBy(w, w.queue[i]);
    }
  }

  lemma EraseAfterMove(lower: Text -> Text, w: World, op: OpId)
    requires WorldOK(lower, w) && op in w.ops && w.ops[op].phase.Locked? && w.ops[op].request.CreateEncrypted?
    requires Doomed(Moved(w, op, CleaningUp), IdOf(w.ops[op].request))
    ensures WorldOK(lower, Erase(w, op, CleaningUp))
  {
    hide DirectoryOK, InsertsOK, DoomOK, LocksOK, OrderOK, HistoryOK, InsertPending, Free, Doomed;
    MovedOK(lower, w, op, CleaningUp);
    MoreErasures(lower, Moved(w, op, CleaningUp), Erasure(IdOf(w.ops[op].request), op));
  }

  lemma FewerErasures(lower: Text -> Text, w: World, index: nat, ok: bool)
    requires WorldOK(lower, w) && index < |w.erasures|
    ensures WorldOK(lower,
      w.(erasures := Without(w.erasures, index), databases := if ok then w.databases - {w.erasures[index].id}
         else w.databases))
  {
    hide InsertPending, Holds, Free, Marks, Readable, NamesApart, Accepted, Admitted;
    var after :=
        w.(erasures := Without(w.erasures, index), databases := if ok then w.databases - {w.erasures[index].id}
           else w.databases);
    SameInserts(w, after);
    forall id | Doomed(w, id) ensures Doomed(after, id) {
      DoomedStays(w, after, id);
    }
  }

  lemma ErasedOK(lower: Text -> Text, w: World, index: nat, ok: bool)
    requires WorldOK(lower, w) && Enabled(lower, w, Erased(index, ok))
    ensures WorldOK(lower, Do(lower, w, Erased(index, ok)))
  {
    hide DirectoryOK, InsertsOK, LocksOK, OrderOK, HistoryOK, InsertPending, Free, Doomed;
    var op := w.erasures[index].op;
    FewerErasures(lower, w, index, ok);
    var after :=
        w.(erasures := Without(w.erasures, index), databases := if ok then w.databases - {w.erasures[index].id}
           else w.databases);
    if op in w.ops && (w.ops[op].phase.Erasing? || w.ops[op].phase.CleaningUp?) {
      FinishOK(lower, after, op, false);
      if w.ops[op].phase.Erasing? && IdOf(w.ops[op].request) == w.erasures[index].id && ok {
        EnqueuedOK(lower, after, op, Drop(w.ops[op].phase.row));
      }
    }
  }

  lemma LeasedIsNotDoomed(lower: Text -> Text, w: World, op: OpId)
    requires OrderOK(w) && op in w.ops && w.ops[op].phase.Leased?
    ensures !Doomed(w, IdOf(w.ops[op].request))
  {
  }

  lemma PopulateOK(lower: Text -> Text, w: World, op: OpId)
    requires WorldOK(lower, w) && Enabled(lower, w, Populate(op))
    ensures WorldOK(lower, Do(lower, w, Populate(op)))
  {
    hide DirectoryOK, InsertsOK, LocksOK, OrderOK, HistoryOK, DoomOK;
    if w.ops[op].phase.Leased? {
      LeasedIsNotDoomed(lower, w, op);
    } else {
      InsertableIsNotDoomed(w, op);
    }
    DatabaseOK(lower, w, IdOf(w.ops[op].request));
  }

  lemma StepKeepsWorldOK(lower: Text -> Text, w: World, step: Step)
    requires WorldOK(lower, w) && Enabled(lower, w, step)
    ensures WorldOK(lower, Do(lower, w, step))
  {
    hide WorldOK, Free, Accepted, Advanced;
    match step {
      case Begin(op, request) => BeginOK(lower, w, op, request);
      case Submit(op) => SubmitOK(lower, w, op);
      case Lock(op) => LockOK(lower, w, op);
      case Prepare(op, ok, created) => PrepareOK(lower, w, op, ok, created);
      case Settle(commits) => SettleOK(lower, w, commits);
      case GiveUp(op) => AdvancedOK(lower, w, op, false);
      case Erased(index, ok) => ErasedOK(lower, w, index, ok);
      case StopWaiting(op) => FinishOK(lower, w, op, false);
      case Populate(op) => PopulateOK(lower, w, op);
      case Release(op) => FinishOK(lower, w, op, true);
      case Crash(op) => FinishOK(lower, w, op, false);
    }
  }

  lemma {:induction false} RunKeepsWorldOK(lower: Text -> Text, w: World, steps: seq<Step>)
    requires WorldOK(lower, w) && Runs(lower, w, steps)
    ensures WorldOK(lower, After(lower, w, steps))
    decreases |steps|
  {
    hide WorldOK, Enabled, Do;
    if steps != [] {
      StepKeepsWorldOK(lower, w, steps[0]);
      RunKeepsWorldOK(lower, Do(lower, w, steps[0]), steps[1..]);
    }
  }

  // ---------- What the directory promises ----------

  /** A readable directory with nothing under way, over whatever databases exist. */
  function Initial(rows: Rows, databases: set<Text>): World
  {
    World(rows, [], 0, map[], [], databases, rows.Keys, rows.Values)
  }

  ghost predicate RunFrom(lower: Text -> Text, rows: Rows, databases: set<Text>, steps: seq<Step>)
  {
    Readable(rows) && NamesApart(rows, lower) && Runs(lower, Initial(rows, databases), steps)
  }

  ghost function Reached(lower: Text -> Text, rows: Rows, databases: set<Text>, steps: seq<Step>): World
    requires RunFrom(lower, rows, databases, steps)
  {
    After(lower, Initial(rows, databases), steps)
  }

  lemma ReachedOK(lower: Text -> Text, rows: Rows, databases: set<Text>, steps: seq<Step>)
    requires RunFrom(lower, rows, databases, steps)
    ensures WorldOK(lower, Reached(lower, rows, databases, steps))
  {
    hide Enabled, Do;
    var w := Initial(rows, databases);
    forall r, s | r in w.ever && s in w.ever && r.id == s.id ensures r == s && w.rows[r.id] == r {
      assert Readable(rows);
    }
    RunKeepsWorldOK(lower, w, steps);
  }

  /**
   Every reachable directory passes its own reader: at most 1000 readable rows,
   one per identifier, with names apart in any case.
   */
  lemma DirectoryStaysReadable(lower: Text -> Text, rows: Rows, databases: set<Text>, steps: seq<Step>)
    requires RunFrom(lower, rows, databases, steps)
    ensures Readable(Reached(lower, rows, databases, steps).rows)
        && NamesApart(Reached(lower, rows, databases, steps).rows, lower)
  {
    hide Reached, Readable, NamesApart;
    ReachedOK(lower, rows, databases, steps);
  }

  /**
   Lease safety: while a lease is held its row is present and ready, nobody
   else holds the lock exclusively, and no deletion of its database and no
   transaction that would mark or drop its row is outstanding, not even one
   whose caller timed out or vanished.
   */
  lemma LeasesAreSafe(lower: Text -> Text, rows: Rows, databases: set<Text>, steps: seq<Step>, o: OpId)
    requires RunFrom(lower, rows, databases, steps)
    requires var w := Reached(lower, rows, databases, steps); o in w.ops && w.ops[o].phase.Leased?
    ensures var w := Reached(lower, rows, databases, steps);
      var id := IdOf(w.ops[o].request);
      && id in w.rows && w.rows[id].state == Ready
      && (forall p :: p in w.ops && p != o && Holds(w.ops[p]) && IdOf(w.ops[p].request) == id ==>
          !Exclusive(w.ops[p].request))
      && (forall i :: 0 <= i < |w.erasures| ==> w.erasures[i].id != id)
      && (forall i :: 0 <= i < |w.queue| ==>
          !Marks(w.queue[i], id) && !(w.queue[i].action.Drop? && w.queue[i].action.expected.id == id))
  {
    hide Reached, Readable, NamesApart, InsertsOK, HistoryOK, Marks, InsertPending;
    var w := Reached(lower, rows, databases, steps);
    ReachedOK(lower, rows, databases, steps);
    assert PhaseOK(w, w.ops[o]);
    LeasedIsNotDoomed(lower, w, o);
    forall p | p in w.ops && p != o && Holds(w.ops[p]) && IdOf(w.ops[p].request) == IdOf(w.ops[o].request)
      ensures !Exclusive(w.ops[p].request)
    {
      assert BothHold(w.ops[p], w.ops[o]);
    }
  }

  /**
   Tombstones: a step changes a deleting row in no other way than to remove it,
   and no row is ever removed while the data of its workspace exists.
   */
  lemma RowsOutliveTheirData(lower: Text -> Text, rows: Rows, databases: set<Text>, steps: seq<Step>, step: Step,
                             id: Text)
    requires RunFrom(lower, rows, databases, steps) && Enabled(lower, Reached(lower, rows, databases, steps), step)
    requires id in Reached(lower, rows, databases, steps).rows
    ensures var w := Reached(lower, rows, databases, steps);
      var next := Do(lower, w, step);
      && (id in next.rows && w.rows[id].state == Deleting ==> next.rows[id] == w.rows[id])
      && (id !in next.rows ==> w.rows[id].state == Deleting && id !in w.databases)
  {
    hide Reached, Readable, NamesApart, HistoryOK, OrderOK, LocksOK, Doomed, InsertPending, Applied, Accepted, Free,
        Admitted;
    var w := Reached(lower, rows, databases, steps);
    ReachedOK(lower, rows, databases, steps);
    if step.Settle? && Outcome(lower, w, step.commits).Some? {
      RowsOnlyAdvance(w.rows, lower, w.queue[0].action, id);
    }
  }

  /**
   Optimistic checks compare a revision and a state, yet accept exactly the row
   the caller saw: once it changed in any way, no rename, mark or drop based on
   it applies.
   */
  lemma StaleChangesNeverApply(lower: Text -> Text, rows: Rows, databases: set<Text>, steps: seq<Step>, expected: Row,
                               action: Action)
    requires RunFrom(lower, rows, databases, steps)
    requires expected in Reached(lower, rows, databases, steps).ever
    requires (action.Rename? || action.Mark? || action.Drop?) && action.expected == expected
    requires Applied(Reached(lower, rows, databases, steps).rows, lower, action).Some?
    ensures var w := Reached(lower, rows, databases, steps); expected.id in w.rows && w.rows[expected.id] == expected
  {
    hide Reached, NamesApart, OrderOK, LocksOK, DoomOK, InsertsOK, InsertPending, NameTaken, ValidRow;
    var w := Reached(lower, rows, databases, steps);
    ReachedOK(lower, rows, databases, steps);
    assert w.rows[expected.id] in w.rows.Values;
  }

  /** A row's revision is higher than that of every other row ever committed under its identifier. */
  lemma RevisionsNeverRepeat(lower: Text -> Text, rows: Rows, databases: set<Text>, steps: seq<Step>, id: Text,
                             earlier: Row)
    requires RunFrom(lower, rows, databases, steps)
    requires var w := Reached(lower, rows, databases, steps);
        id in w.rows && earlier in w.ever && earlier.id == id && earlier != w.rows[id]
    ensures earlier.revision < Reached(lower, rows, databases, steps).rows[id].revision
  {
    hide Reached, NamesApart, OrderOK, LocksOK, DoomOK, InsertsOK, InsertPending, ValidRow;
    var w := Reached(lower, rows, databases, steps);
    ReachedOK(lower, rows, databases, steps);
    assert w.rows[id] in w.rows.Values;
  }
}

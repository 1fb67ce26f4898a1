/**
 Rows of the workspace directory and the five things a transaction may do to
 them, each after reading and validating the whole bounded directory.

 Case folding (`toLowerCase`) is the parameter `lower`; times are milliseconds.
 */
module WorkspaceDirectory {
  import opened Basics
  import opened LocalDataContent

  const MAX_BROWSER_WORKSPACES: nat := 1000
  const MAX_BROWSER_WORKSPACE_NAME: nat := 100

  /** The name of the default workspace, "Default". */
  const DEFAULT_BROWSER_WORKSPACE_NAME: Text := [0x44, 0x65, 0x66, 0x61, 0x75, 0x6C, 0x74]

  datatype RowState = Ready | Deleting

  datatype Row = Row(id: Text, name: Text, createdAt: nat, updatedAt: nat, revision: int, state: RowState,
                     encryption: Option<nat>)

  type Rows = map<Text, Row>

  predicate LowerHex(u: CodeUnit) { 0x30 <= u <= 0x39 || 0x61 <= u <= 0x66 }

  /** A version 4 identifier in the lower-case text form of RFC 9562, section 4. */
  predicate ValidId(id: Text)
  {
    && |id| == 36
    && (forall i :: 0 <= i < 36 ==> if i in {8, 13, 18, 23} then id[i] == 0x2D else LowerHex(id[i]))
    && id[14] == 0x34 && id[19] in {0x38, 0x39, 0x61, 0x62}
  }

  /** `browserWorkspaceName`: trimmed, or refused. */
  function WorkspaceName(value: Text): Option<Text>
  {
    if Trim(value) == [] || |value| > MAX_BROWSER_WORKSPACE_NAME || HasControl(value) then None else Some(Trim(value))
  }

  /** What `readBrowserWorkspace` accepts. */
  predicate ValidRow(row: Row)
  {
    && ValidId(row.id)
    && WorkspaceName(row.name) == Some(row.name)
    && 1 <= row.revision <= MAX_SAFE_INTEGER
    && row.createdAt <= row.updatedAt
  }

  predicate Readable(rows: Rows)
  {
    |rows| <= MAX_BROWSER_WORKSPACES && forall id :: id in rows ==> rows[id].id == id && ValidRow(rows[id])
  }

  // ---------- Transactions ----------

  datatype Action =
    | List
    | Insert(row: Row)
    | Rename(expected: Row, name: Text, at: nat)
    | Mark(expected: Row, at: nat)
    | Drop(expected: Row)

  /** The row an optimistic change is based on is still the current one, by revision and state. */
  predicate Expected(rows: Rows, expected: Row)
  {
    expected.id in rows && rows[expected.id].revision == expected.revision && rows[expected.id].state == expected.state
  }

  predicate NameTaken(rows: Rows, lower: Text -> Text, name: Text, except: Text)
  {
    exists id :: id in rows && id != except && lower(rows[id].name) == lower(name)
  }

  function Renamed(row: Row, name: Text,
                   at: nat): Row { row.(name := name, updatedAt := at, revision := row.revision + 1) }

  function Marked(row: Row, at: nat): Row { row.(state := Deleting, updatedAt := at, revision := row.revision + 1) }

  /** The rows an action leaves, or nothing when its transaction aborts itself. */
  function Applied(rows: Rows, lower: Text -> Text, action: Action): Option<Rows>
  {
    if !Readable(rows) then None
    else
      match action
      case List => Some(rows)
      case Insert(row) =>
        if |rows| >= MAX_BROWSER_WORKSPACES || row.id in rows || NameTaken(rows, lower, row.name, row.id) then None
        else Some(rows[row.id := row])
      case Rename(expected, name, at) =>
        if !ValidRow(expected) || !Expected(rows, expected) || rows[expected.id].state != Ready
            || NameTaken(rows, lower, name, expected.id)
           || !ValidRow(Renamed(rows[expected.id], name, at))
        then None else Some(rows[expected.id := Renamed(rows[expected.id], name, at)])
      case Mark(expected, at) =>
        if !ValidRow(expected) || !Expected(rows, expected) then None
        else if rows[expected.id].state == Deleting then Some(rows)
        else if !ValidRow(Marked(rows[expected.id], at)) then None
        else Some(rows[expected.id := Marked(rows[expected.id], at)])
      case Drop(expected) =>
        if !ValidRow(expected) || !Expected(rows, expected) then None else Some(rows - {expected.id})
  }

  // ---------- The directory stays readable ----------

  /** No two workspaces share a name, and none takes the default workspace's, whatever the case. */
  ghost predicate NamesApart(rows: Rows, lower: Text -> Text)
  {
    && (forall a, b :: a in rows && b in rows && a != b ==> lower(rows[a].name) != lower(rows[b].name))
    && (forall a :: a in rows ==> lower(rows[a].name) != lower(DEFAULT_BROWSER_WORKSPACE_NAME))
  }

  /** What `create`, `rename` and `remove` check before they open a transaction. */
  predicate Admitted(lower: Text -> Text, action: Action)
  {
    match action
    case Insert(row) =>
        ValidRow(row) && row.state == Ready && row.revision == 1
            && lower(row.name) != lower(DEFAULT_BROWSER_WORKSPACE_NAME)
    case Rename(_, name, _) => WorkspaceName(name) == Some(name) && lower(name) != lower(DEFAULT_BROWSER_WORKSPACE_NAME)
    case Drop(expected) => expected.state == Deleting
    case _ => true
  }

  lemma ReplacingKeepsSize(rows: Rows, id: Text, row: Row)
    requires id in rows
    ensures |rows[id := row]| == |rows|
  {
  }

  lemma InsertingGrows(rows: Rows, id: Text, row: Row)
    requires id !in rows
    ensures |rows[id := row]| == |rows| + 1
  {
  }

  lemma PutKeepsReadable(rows: Rows, lower: Text -> Text, row: Row)
    requires Readable(rows) && NamesApart(rows, lower) && ValidRow(row)
    requires row.id in rows || |rows| < MAX_BROWSER_WORKSPACES
    requires !NameTaken(rows, lower, row.name, row.id) && lower(row.name) != lower(DEFAULT_BROWSER_WORKSPACE_NAME)
    ensures Readable(rows[row.id := row]) && NamesApart(rows[row.id := row], lower)
  {
    hide ValidRow;
    if row.id in rows {
      ReplacingKeepsSize(rows, row.id, row);
    } else {
      InsertingGrows(rows, row.id, row);
    }
  }

  /** Every action leaves the directory within what the next reader accepts, with names still apart. */
  lemma ActionsKeepDirectoryReadable(rows: Rows, lower: Text -> Text, action: Action)
    requires Readable(rows) && NamesApart(rows, lower) && Admitted(lower, action)
    requires Applied(rows, lower, action).Some?
    ensures Readable(Applied(rows, lower, action).value) && NamesApart(Applied(rows, lower, action).value, lower)
  {
    hide ValidRow, WorkspaceName, Readable, NamesApart, NameTaken;
    match action {
      case Insert(row) => PutKeepsReadable(rows, lower, row);
      case Rename(expected, name, at) =>
        RowIsItsOwn(rows, lower, expected.id);
        PutKeepsReadable(rows, lower, Renamed(rows[expected.id], name, at));
      case Mark(expected, at) =>
        RowIsItsOwn(rows, lower, expected.id);
        if rows[expected.id].state == Ready {
          PutKeepsReadable(rows, lower, Marked(rows[expected.id], at));
        }
      case Drop(expected) => DropKeepsReadable(rows, lower, expected.id);
      case List =>
    }
  }

  lemma RowIsItsOwn(rows: Rows, lower: Text -> Text, id: Text)
    requires Readable(rows) && NamesApart(rows, lower) && id in rows
    ensures rows[id].id == id && !NameTaken(rows, lower, rows[id].name, id)
        && lower(rows[id].name) != lower(DEFAULT_BROWSER_WORKSPACE_NAME)
  {
  }

  lemma DropKeepsReadable(rows: Rows, lower: Text -> Text, id: Text)
    requires Readable(rows) && NamesApart(rows, lower)
    ensures Readable(rows - {id}) && NamesApart(rows - {id}, lower)
  {
  }

  /**
   What an action does to one row: a present row keeps its revision only if it
   is unchanged, otherwise raises it by one; it never comes back from deleting;
   and it goes only by a drop of its deleting form.
   */
  lemma RowsOnlyAdvance(rows: Rows, lower: Text -> Text, action: Action, id: Text)
    requires Admitted(lower, action) && Applied(rows, lower, action).Some?
    requires id in rows
    ensures var after := Applied(rows, lower, action).value;
      if id in after
      then (after[id] == rows[id]
            || (after[id].revision == rows[id].revision + 1 && after[id].createdAt == rows[id].createdAt
                                      && after[id].encryption == rows[id].encryption && rows[id].state == Ready))
           && (rows[id].state == Deleting ==> after[id] == rows[id])
      else action.Drop? && action.expected.id == id && rows[id].state == Deleting
  {
  }

  // ---------- One transaction as its caller sees it ----------

  datatype Answer = Pending | Resolved | NotSaved | Unconfirmed

  /** What the browser decides, once. */
  datatype Fate = Open | Committed | Undone

  datatype Exchange = Exchange(answer: Answer, prepared: bool, timedOut: bool, abortAccepted: bool, fate: Fate)

  /** The bounded read succeeded and its rows were accepted or not; the transaction ended; its deadlines passed. */
  datatype Signal = Rows(applies: bool) | Complete | Abort | Timer(accepted: bool) | Grace

  function Answered(x: Exchange, outcome: Answer): Exchange
  {
    if x.answer == Pending then x.(answer := outcome) else x
  }

  /** A caller already answered changes nothing; a completed transaction resolves only what was prepared. */
  function Signalled(x: Exchange, signal: Signal): Exchange
  {
    match signal
    case Rows(applies) =>
      if x.answer != Pending then x else if applies then x.(prepared := true) else x.(abortAccepted := true)
    case Complete => Answered(x.(fate := Committed), if x.prepared then Resolved else NotSaved)
    case Abort => Answered(x.(fate := Undone), NotSaved)
    case Timer(accepted) => x.(timedOut := true, abortAccepted := x.abortAccepted || accepted)
    case Grace => Answered(x, Unconfirmed)
  }

  /** The browser completes no transaction it has agreed to abort, and agrees to abort none that has ended. */
  predicate Allowed(x: Exchange, signal: Signal)
  {
    match signal
    case Rows(_) => x.fate == Open
    case Complete => x.fate == Open && !x.abortAccepted
    case Abort => x.fate == Open
    case Timer(accepted) => accepted ==> x.fate == Open
    case Grace => x.timedOut
  }

  /** The answer never claims more than the browser decided, and is given as soon as it decides. */
  predicate Honest(x: Exchange)
  {
    && (x.answer == Resolved ==> x.fate == Committed && x.prepared)
    && (x.answer == NotSaved ==> x.fate == Undone || (x.fate == Committed && !x.prepared))
    && (x.answer == Unconfirmed ==> x.timedOut)
    && (x.fate != Open ==> x.answer != Pending)
    && (x.abortAccepted ==> x.fate != Committed)
  }

  lemma SignalKeepsHonest(x: Exchange, signal: Signal)
    requires Honest(x) && Allowed(x, signal)
    ensures Honest(Signalled(x, signal))
    ensures x.answer != Pending ==>
      Signalled(x, signal).answer == x.answer && Signalled(x, signal).prepared == x.prepared
    ensures x.fate != Fate.Open ==> Signalled(x, signal).fate == x.fate
  {
  }

  /** An exchange before anything has happened. */
  const UNANSWERED: Exchange := Exchange(Pending, false, false, false, Fate.Open)

  /** Each signal in turn is one the browser may give. */
  predicate AllAllowed(x: Exchange, signals: seq<Signal>)
    decreases |signals|
  {
    signals == [] || (Allowed(x, signals[0]) && AllAllowed(Signalled(x, signals[0]), signals[1..]))
  }

  function AllSignalled(x: Exchange, signals: seq<Signal>): Exchange
    decreases |signals|
  {
    if signals == [] then x else AllSignalled(Signalled(x, signals[0]), signals[1..])
  }

  lemma {:induction false} SignalsKeepHonest(x: Exchange, signals: seq<Signal>)
    requires Honest(x) && AllAllowed(x, signals)
    ensures Honest(AllSignalled(x, signals))
    ensures x.answer != Pending ==>
      AllSignalled(x, signals).answer == x.answer && AllSignalled(x, signals).prepared == x.prepared
    ensures x.fate != Fate.Open ==> AllSignalled(x, signals).fate == x.fate
    decreases |signals|
  {
    hide Honest, Signalled, Allowed;
    if signals != [] {
      SignalKeepsHonest(x, signals[0]);
      SignalsKeepHonest(Signalled(x, signals[0]), signals[1..]);
    }
  }

  lemma {:induction false} SignalsSplit(x: Exchange, signals: seq<Signal>, n: nat)
    requires AllAllowed(x, signals) && n <= |signals|
    ensures AllAllowed(x, signals[..n]) && AllAllowed(AllSignalled(x, signals[..n]), signals[n..])
    ensures AllSignalled(AllSignalled(x, signals[..n]), signals[n..]) == AllSignalled(x, signals)
    decreases |signals|
  {
    hide Signalled, Allowed;
    if n > 0 {
      SignalsSplit(Signalled(x, signals[0]), signals[1..], n - 1);
      assert signals[..n][0] == signals[0] && signals[..n][1..] == signals[1..][..n - 1];
      assert signals[n..] == signals[1..][n - 1..];
    } else {
      assert signals[..0] == [] && signals[0..] == signals;
    }
  }

  /**
   In whatever order timers and transaction events arrive: what a caller has been
   told never claims more than the browser has decided by then, it never changes
   afterwards, and nothing is changed for a caller that has been answered.
   */
  lemma AnswersStayHonest(signals: seq<Signal>, n: nat)
    requires AllAllowed(UNANSWERED, signals) && n <= |signals|
    ensures var told, end := AllSignalled(UNANSWERED, signals[..n]), AllSignalled(UNANSWERED, signals);
      && Honest(told) && Honest(end)
      && (told.answer != Pending ==> end.answer == told.answer && end.prepared == told.prepared)
      && (told.fate != Fate.Open ==> end.fate == told.fate && end.answer == told.answer != Pending)
  {
    SignalsSplit(UNANSWERED, signals, n);
    SignalsKeepHonest(UNANSWERED, signals[..n]);
    SignalsKeepHonest(AllSignalled(UNANSWERED, signals[..n]), signals[n..]);
  }

  /** The settling logic of `transact`. */
  class Transaction {
    var answer: Answer
    var prepared: bool
    var timedOut: bool
    var abortAccepted: bool
    ghost var fate: Fate

    constructor ()
      ensures Snapshot() == UNANSWERED
    {
      answer, prepared, timedOut, abortAccepted, fate := Pending, false, false, false, Open;
    }

    ghost function Snapshot(): Exchange
      reads this
    {
      Exchange(answer, prepared, timedOut, abortAccepted, fate)
    }

    method Finish(outcome: Answer)
      modifies this`answer
      ensures Snapshot() == Answered(old(Snapshot()), outcome)
    {
      if answer == Pending {
        answer := outcome;
      }
    }

    method OnRows(applies: bool)
      modifies this`prepared, this`abortAccepted
      ensures Snapshot() == Signalled(old(Snapshot()), Rows(applies))
    {
      if answer != Pending {
        return;
      }
      if applies {
        prepared := true;
      } else {
        abortAccepted := true;
      }
    }

    method OnComplete()
      modifies this`answer, this`fate
      ensures Snapshot() == Signalled(old(Snapshot()), Complete)
    {
      fate := Committed;
      Finish(if prepared then Resolved else NotSaved);
    }

    method OnAbort()
      modifies this`answer, this`fate
      ensures Snapshot() == Signalled(old(Snapshot()), Abort)
    {
      fate := Undone;
      Finish(NotSaved);
    }

    /** The deadline passed: the transaction is asked to abort, which the browser refuses once it is completing. */
    method OnTimer(accepted: bool)
      modifies this`timedOut, this`abortAccepted
      ensures Snapshot() == Signalled(old(Snapshot()), Timer(accepted))
    {
      timedOut := true;
      if accepted {
        abortAccepted := true;
      }
    }

    method OnGrace()
      modifies this`answer
      ensures Snapshot() == Signalled(old(Snapshot()), Grace)
    {
      Finish(Unconfirmed);
    }
  }
}

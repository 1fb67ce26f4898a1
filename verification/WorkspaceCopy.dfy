/**
 The workspace-copy coordinator: one operation at a time, the metadata write
 attempted once, and an orderly close. `WorkspaceCopyRuns` runs it against the
 destination's provider.

 Each step is what runs between two awaits. `Resume(ok, needed)` continues the
 running operation after the await it is at: `ok` is whether the awaited call
 succeeded, `needed` whether the read it made found originals still to be copied.
 */
module WorkspaceCopy {
  import opened Basics

  datatype Task = Copying | Verifying | Retrying

  datatype WriteState = NotStarted | Unconfirmed | Committed

  datatype Point =
    | Admission                  // lifecycle.assertCurrent, in run
    | SourceCheck                // the source is unchanged, before anything is written
    | Initializing
    | LastCheck                  // lifecycle.assertCurrent, just before the metadata write
    | WritingMetadata
    | FilesSourceCheck
    | DestinationCheck           // the destination documents are the captured ones
    | GroupCheck(group: nat)
    | GroupRead(group: nat)      // which originals the destination has
    | SourceRead(group: nat)     // the missing ones, from the source
    | GroupSourceCheck(group: nat)
    | WritingFiles(group: nat)
    | VerifyDocuments            // from here on the report: only reads
    | VerifyGroup(group: nat)
    | VerifySource
    | FinalCheck                 // lifecycle.assertCurrent, before the report is returned

  /** A call that may change the destination, and whether `close` had been called when it was started. */
  datatype Call = Call(point: Point, late: bool)

  datatype State = State(attempted: bool, closing: bool, released: bool, running: Option<(Task, Point)>,
                         writeState: WriteState, calls: seq<Call>)

  datatype Event = Start(task: Task) | Resume(ok: bool, needed: bool) | Close | Release

  const INITIAL: State := State(false, false, false, None, NotStarted, [])

  // ---------- Steps ----------

  function At(s: State, point: Point): State
    requires s.running.Some?
  {
    s.(running := Some((s.running.value.0, point)))
  }

  function Stopped(s: State): State { s.(running := None) }

  /** `signal.throwIfAborted()`, then on to `point`. */
  function Unless(s: State, point: Point): State
    requires s.running.Some?
  {
    if s.closing then Stopped(s) else At(s, point)
  }

  /** The next of `groups` file groups, or the report. */
  function NextGroup(groups: nat, s: State, group: nat): State
    requires s.running.Some?
  {
    if group < groups then Unless(s, GroupCheck(group)) else At(s, VerifyDocuments)
  }

  /** The next file group to be reported, or the source once more. */
  function NextReported(groups: nat, s: State, group: nat): State
    requires s.running.Some?
  {
    if group < groups then Unless(s, VerifyGroup(group)) else At(s, VerifySource)
  }

  /** A call that may change the destination is started and awaited. */
  function Called(s: State, point: Point): State
    requires s.running.Some?
  {
    At(s, point).(calls := s.calls + [Call(point, s.closing)])
  }

  function Issued(s: State, point: Point): State
    requires s.running.Some?
  {
    Called(s, point).(writeState := Unconfirmed)
  }

  function Resumed(groups: nat, s: State, needed: bool): State
    requires s.running.Some?
  {
    match s.running.value.1
    case Admission =>
      if s.closing then Stopped(s)
      else if s.running.value.0.Copying?
          then (if s.attempted then Stopped(s) else Unless(s.(attempted := true), SourceCheck))
      else if s.running.value.0.Retrying? then Unless(s, FilesSourceCheck)
      else At(s, VerifyDocuments)
    case SourceCheck => Called(s, Initializing)
    case Initializing => Unless(s, LastCheck)
    case LastCheck => Issued(s, WritingMetadata)
    case WritingMetadata => Unless(s.(writeState := Committed), FilesSourceCheck)
    case FilesSourceCheck => At(s, DestinationCheck)
    case DestinationCheck => NextGroup(groups, s, 0)
    case GroupCheck(group) => At(s, GroupRead(group))
    case GroupRead(group) => if needed then At(s, SourceRead(group)) else NextGroup(groups, s, group + 1)
    case SourceRead(group) => if needed then Unless(s, GroupSourceCheck(group)) else NextGroup(groups, s, group + 1)
    case GroupSourceCheck(group) => if s.closing then Stopped(s) else Issued(s, WritingFiles(group))
    case WritingFiles(group) => NextGroup(groups, s.(writeState := Committed), group + 1)
    case VerifyDocuments => NextReported(groups, s, 0)
    case VerifyGroup(group) => NextReported(groups, s, group + 1)
    case VerifySource => At(s, FinalCheck)
    case FinalCheck => Stopped(s)
  }

  predicate Enabled(s: State, e: Event)
  {
    match e
    case Resume(_, _) => s.running.Some?
    case Release => s.closing && s.running.None? && !s.released
    case _ => true
  }

  function Next(groups: nat, s: State, e: Event): State
    requires Enabled(s, e)
  {
    match e
    case Start(task) =>
        if s.closing || s.running.Some? then s else s.(running := Some((task, Admission)), writeState := NotStarted)
    case Resume(ok, needed) => if ok then Resumed(groups, s, needed) else Stopped(s)
    case Close => s.(closing := true)
    case Release => s.(released := true)
  }

  ghost predicate Runs(groups: nat, s: State, events: seq<Event>)
    decreases |events|
  {
    events == [] || (Enabled(s, events[0]) && Runs(groups, Next(groups, s, events[0]), events[1..]))
  }

  ghost function After(groups: nat, s: State, events: seq<Event>): State
    requires Runs(groups, s, events)
    decreases |events|
  {
    if events == [] then s else After(groups, Next(groups, s, events[0]), events[1..])
  }

  // ---------- The coordinator ----------

  class BrowserWorkspaceCopy {
    const groups: nat
    var attempted: bool
    var closing: bool
    var released: bool
    var pending: Option<(Task, Point)>
    var writeState: WriteState
    ghost var calls: seq<Call>

    constructor (groups: nat)
      ensures Snapshot() == INITIAL && this.groups == groups
    {
      this.groups := groups;
      attempted, closing, released, pending, writeState, calls := false, false, false, None, NotStarted, [];
    }

    ghost function Snapshot(): State
      reads this
    {
      State(attempted, closing, released, pending, writeState, calls)
    }

    method Run(task: Task) returns (started: bool)
      modifies this
      ensures Snapshot() == Next(groups, old(Snapshot()), Start(task))
      ensures started <==> !old(closing) && old(pending).None?
    {
      started := !closing && pending.None?;
      if started {
        writeState := NotStarted;
        pending := Some((task, Admission));
      }
    }

    method StartCall(point: Point)
      requires pending.Some?
      modifies this`pending, this`calls
      ensures Snapshot() == Called(old(Snapshot()), point)
    {
      calls := calls + [Call(point, closing)];
      pending := Some((pending.value.0, point));
    }

    method IssueWrite(point: Point)
      requires pending.Some?
      modifies this
      ensures Snapshot() == Issued(old(Snapshot()), point)
    {
      writeState := Unconfirmed;
      StartCall(point);
    }

    method GoOn(point: Point, checkSignal: bool)
      requires pending.Some?
      modifies this`pending
      ensures Snapshot() == if checkSignal then Unless(old(Snapshot()), point) else At(old(Snapshot()), point)
    {
      pending := if checkSignal && closing then None else Some((pending.value.0, point));
    }

    method GoToGroup(group: nat)
      requires pending.Some?
      modifies this`pending
      ensures Snapshot() == NextGroup(groups, old(Snapshot()), group)
    {
      if group < groups {
        GoOn(GroupCheck(group), true);
      } else {
        GoOn(VerifyDocuments, false);
      }
    }

    method GoToReported(group: nat)
      requires pending.Some?
      modifies this`pending
      ensures Snapshot() == NextReported(groups, old(Snapshot()), group)
    {
      if group < groups {
        GoOn(VerifyGroup(group), true);
      } else {
        GoOn(VerifySource, false);
      }
    }

    /** The awaited call returned; `ok` is false when it threw. */
    method Continue(ok: bool, needed: bool)
      requires Enabled(Snapshot(), Resume(ok, needed))
      modifies this
      ensures Snapshot() == Next(groups, old(Snapshot()), Resume(ok, needed))
    {
      var task, point := pending.value.0, pending.value.1;
      if !ok {
        pending := None;
        return;
      }
      match point {
        case Admission =>
          if closing || (task.Copying? && attempted) {
            pending := None;
          } else if task.Copying? {
            attempted := true;
            GoOn(SourceCheck, true);
          } else if task.Retrying? {
            GoOn(FilesSourceCheck, true);
          } else {
            GoOn(VerifyDocuments, false);
          }
        case SourceCheck => StartCall(Initializing);
        case Initializing => GoOn(LastCheck, true);
        case LastCheck => IssueWrite(WritingMetadata);
        case WritingMetadata => writeState := Committed; GoOn(FilesSourceCheck, true);
        case FilesSourceCheck => GoOn(DestinationCheck, false);
        case DestinationCheck => GoToGroup(0);
        case GroupCheck(group) => GoOn(GroupRead(group), false);
        case GroupRead(group) =>
          if needed {
            GoOn(SourceRead(group), false);
          } else {
            GoToGroup(group + 1);
          }
        case SourceRead(group) =>
          if needed {
            GoOn(GroupSourceCheck(group), true);
          } else {
            GoToGroup(group + 1);
          }
        case GroupSourceCheck(group) =>
          if closing {
            pending := None;
          } else {
            IssueWrite(WritingFiles(group));
          }
        case WritingFiles(group) => writeState := Committed; GoToGroup(group + 1);
        case VerifyDocuments => GoToReported(0);
        case VerifyGroup(group) => GoToReported(group + 1);
        case VerifySource => GoOn(FinalCheck, false);
        case FinalCheck => pending := None;
      }
    }

    method CloseCopy()
      modifies this`closing
      ensures Snapshot() == Next(groups, old(Snapshot()), Close)
    {
      closing := true;
    }
  }

  // ---------- What every run keeps ----------

  predicate BeforeMetadata(point: Point) { point.SourceCheck? || point.Initializing? || point.LastCheck? }

  /** How often a call was started at this point. */
  function Count(calls: seq<Call>, point: Point): nat
  {
    if calls == [] then 0 else Count(calls[..|calls| - 1], point) + if calls[|calls| - 1].point == point then 1 else 0
  }

  function Late(calls: seq<Call>): nat
  {
    if calls == [] then 0 else Late(calls[..|calls| - 1]) + if calls[|calls| - 1].late then 1 else 0
  }

  lemma OneMoreCall(calls: seq<Call>, call: Call, point: Point)
    ensures Count(calls + [call], point) == Count(calls, point) + if call.point == point then 1 else 0
    ensures Late(calls + [call]) == Late(calls) + if call.late then 1 else 0
  {
    assert (calls + [call])[..|calls|] == calls;
  }

  predicate AtPoint(s: State, point: Point) { s.running.Some? && s.running.value.1 == point }

  /** How far the one attempt to copy has come bounds what has been called; closing bounds how much of it came late. */
  ghost predicate Inv(s: State)
  {
    && (!s.attempted ==> Count(s.calls, Initializing) == 0 && Count(s.calls, WritingMetadata) == 0)
    && Count(s.calls, Initializing) <= 1 && Count(s.calls, WritingMetadata) <= 1 && Late(s.calls) <= 1
    && (AtPoint(s, SourceCheck) ==> Count(s.calls, Initializing) == 0)
    && (s.running.Some? && BeforeMetadata(s.running.value.1) ==> s.attempted && Count(s.calls, WritingMetadata) == 0)
    && (Late(s.calls) > 0 ==>
        s.closing && (s.running.Some? ==> s.running.value.1.Initializing? || s.running.value.1.WritingMetadata?))
    && (s.released ==> s.closing && s.running.None?)
  }

  /** The call a step starts, if any. */
  function StartedBy(s: State, e: Event): Option<Point>
  {
    if !e.Resume? || !e.ok || s.running.None? then None
    else
      match s.running.value.1
      case SourceCheck => Some(Initializing)
      case LastCheck => Some(WritingMetadata)
      case GroupSourceCheck(group) => if s.closing then None else Some(WritingFiles(group))
      case _ => None
  }

  lemma StartsOneCall(groups: nat, s: State, e: Event)
    requires Enabled(s, e)
    ensures var started := StartedBy(s, e);
      && Next(groups, s, e).calls == (if started.Some? then s.calls + [Call(started.value, s.closing)] else s.calls)
      && (started.Some? ==> AtPoint(Next(groups, s, e), started.value))
  {
  }

  lemma StepKeepsInv(groups: nat, s: State, e: Event)
    requires Inv(s) && Enabled(s, e)
    ensures Inv(Next(groups, s, e))
  {
    hide Count, Late;
    StartsOneCall(groups, s, e);
    if StartedBy(s, e).Some? {
      OneMoreCall(s.calls, Call(StartedBy(s, e).value, s.closing), Initializing);
      OneMoreCall(s.calls, Call(StartedBy(s, e).value, s.closing), WritingMetadata);
    }
  }

  lemma {:induction false} RunKeepsInv(groups: nat, s: State, events: seq<Event>)
    requires Inv(s) && Runs(groups, s, events)
    ensures Inv(After(groups, s, events))
    decreases |events|
  {
    hide Inv, Enabled, Next;
    if events != [] {
      StepKeepsInv(groups, s, events[0]);
      RunKeepsInv(groups, Next(groups, s, events[0]), events[1..]);
    }
  }

  /**
   Over every run the destination is initialised at most once, the metadata write
   is issued at most once, at most one call starts after `close`, and nothing runs
   once the destination is released.
   */
  lemma MetadataIsWrittenOnce(groups: nat, events: seq<Event>)
    requires Runs(groups, INITIAL, events)
    ensures var s := After(groups, INITIAL, events);
      && Count(s.calls, Initializing) <= 1 && Count(s.calls, WritingMetadata) <= 1 && Late(s.calls) <= 1
      && (s.released ==> s.running.None?)
  {
    RunKeepsInv(groups, INITIAL, events);
  }

  // ---------- After close ----------

  /** The two checks after whose await nothing looks at the signal again. */
  predicate Unguarded(s: State) { AtPoint(s, SourceCheck) || AtPoint(s, LastCheck) }

  /** Such a check passes although `close` was called while it was under way. */
  predicate PassesLate(s: State, e: Event) { s.closing && Unguarded(s) && e.Resume? && e.ok }

  /** No operation starts after close; a call starts exactly when an unguarded check passes late. */
  lemma CallsAfterClose(groups: nat, s: State, e: Event)
    requires Enabled(s, e) && s.closing
    ensures s.running.None? ==> Next(groups, s, e).running.None?
    ensures Next(groups, s, e).calls != s.calls <==> PassesLate(s, e)
  {
    StartsOneCall(groups, s, e);
  }

  ghost predicate SomePassesLate(groups: nat, s: State, events: seq<Event>)
    requires Runs(groups, s, events)
    decreases |events|
  {
    events != [] && (PassesLate(s, events[0]) || SomePassesLate(groups, Next(groups, s, events[0]), events[1..]))
  }

  lemma LateStep(groups: nat, s: State, e: Event)
    requires Enabled(s, e)
    ensures Late(Next(groups, s, e).calls) == Late(s.calls) + if PassesLate(s, e) then 1 else 0
  {
    hide Next, Count, Late;
    StartsOneCall(groups, s, e);
    if StartedBy(s, e).Some? {
      OneMoreCall(s.calls, Call(StartedBy(s, e).value, s.closing), Initializing);
    }
  }

  /** Exactly when a call that may change the destination starts after `close`. */
  lemma {:induction false} LateExactlyWhenUnguarded(groups: nat, s: State, events: seq<Event>)
    requires Runs(groups, s, events)
    ensures Late(After(groups, s, events).calls) >= Late(s.calls)
    ensures Late(After(groups, s, events).calls) > Late(s.calls) <==> SomePassesLate(groups, s, events)
    decreases |events|
  {
    hide Enabled, Next, PassesLate;
    if events != [] {
      LateStep(groups, s, events[0]);
      LateExactlyWhenUnguarded(groups, Next(groups, s, events[0]), events[1..]);
    }
  }

  /** A run in which `close` is never called while an unguarded check is under way. */
  ghost predicate ClosesInTime(groups: nat, s: State, events: seq<Event>)
    requires Runs(groups, s, events)
    decreases |events|
  {
    events == []
        || (!(events[0].Close? && Unguarded(s)) && ClosesInTime(groups, Next(groups, s, events[0]), events[1..]))
  }

  lemma StaysGuarded(groups: nat, s: State, e: Event)
    requires Enabled(s, e) && !(e.Close? && Unguarded(s)) && (s.closing ==> !Unguarded(s))
    ensures !PassesLate(s, e) && (Next(groups, s, e).closing ==> !Unguarded(Next(groups, s, e)))
  {
  }

  /** Closing at any other time keeps every later call from starting. */
  lemma {:induction false} NothingStartsLate(groups: nat, s: State, events: seq<Event>)
    requires Runs(groups, s, events) && ClosesInTime(groups, s, events) && (s.closing ==> !Unguarded(s))
    ensures Late(After(groups, s, events).calls) == Late(s.calls)
    decreases |events|
  {
    hide Enabled, Next, PassesLate, Unguarded;
    if events != [] {
      StaysGuarded(groups, s, events[0]);
      LateStep(groups, s, events[0]);
      NothingStartsLate(groups, Next(groups, s, events[0]), events[1..]);
    }
  }

  lemma Before(groups: nat, s: State, e: Event, rest: seq<Event>, end: State)
    requires Enabled(s, e) && Runs(groups, Next(groups, s, e), rest) && After(groups, Next(groups, s, e), rest) == end
    ensures Runs(groups, s, [e] + rest) && After(groups, s, [e] + rest) == end
  {
  }

  /** A first copy closed during its source check: the destination is initialised afterwards. */
  lemma InitialisationStartsLate(groups: nat) returns (events: seq<Event>)
    ensures Runs(groups, INITIAL, events)
    ensures After(groups, INITIAL, events) ==
      State(true, true, false, Some((Copying, Initializing)), NotStarted, [Call(Initializing, true)])
  {
    var go := Resume(true, false);
    var s1 := Next(groups, INITIAL, Start(Copying));
    var s2 := Next(groups, s1, go);
    var s3 := Next(groups, s2, Close);
    var s4 := Next(groups, s3, go);
    Before(groups, s3, go, [], s4);
    Before(groups, s2, Close, [go] + [], s4);
    Before(groups, s1, go, [Close] + ([go] + []), s4);
    Before(groups, INITIAL, Start(Copying), [go] + ([Close] + ([go] + [])), s4);
    events := [Start(Copying)] + ([go] + ([Close] + ([go] + [])));
  }

  /** One closed during the last check: the metadata write is issued afterwards. */
  lemma MetadataWriteStartsLate(groups: nat) returns (events: seq<Event>)
    ensures Runs(groups, INITIAL, events)
    ensures After(groups, INITIAL, events) ==
      State(true, true, false, Some((Copying, WritingMetadata)), Unconfirmed,
            [Call(Initializing, false), Call(WritingMetadata, true)])
  {
    var go := Resume(true, false);
    var s1 := Next(groups, INITIAL, Start(Copying));
    var s2 := Next(groups, s1, go);
    var s3 := Next(groups, s2, go);
    var s4 := Next(groups, s3, go);
    var s5 := Next(groups, s4, Close);
    var s6 := Next(groups, s5, go);
    var last, ending := [go] + [], [Close] + ([go] + []);
    Before(groups, s5, go, [], s6);
    Before(groups, s4, Close, last, s6);
    Before(groups, s3, go, ending, s6);
    Before(groups, s2, go, [go] + ending, s6);
    Before(groups, s1, go, [go] + ([go] + ending), s6);
    Before(groups, INITIAL, Start(Copying), [go] + ([go] + ([go] + ending)), s6);
    events := [Start(Copying)] + ([go] + ([go] + ([go] + ending)));
  }
}

/**
 The saved-work search session: one worker, one active request, and the latest
 request of each kind waiting in arrival order of the kinds.

 Promises are modelled by what settles them: `settled` records every settlement
 in order. A minute without an answer, a worker failure and an abort all end in
 `Close`; whether the worker accepts a message is a parameter of the step.
 */
module SearchSession {
  import opened Basics

  datatype Kind =
    | Build | Search | Preview | History | Infrastructure | InfrastructureSnapshots | InfrastructureRelationships

  datatype Pending = Pending(id: nat, kind: Kind)

  datatype Verdict = Resolved(kind: Kind) | WorkerError | UnexpectedKind | Superseded | SessionClosed

  datatype Settlement = Settlement(pending: Pending, verdict: Verdict)

  datatype State = State(sequence: nat, active: Option<Pending>, queued: seq<Pending>, closed: bool, timed: bool,
                         settled: seq<Settlement>)

  const INITIAL: State := State(0, None, [], false, false, [])

  /** A reply names the request it answers; `None` stands for an error reply. */
  datatype Event = Ask(kind: Kind, accepted: bool) | Reply(id: nat, answer: Option<Kind>, accepted: bool) | Stop

  // ---------- What each handler does ----------

  function AllClosed(pending: seq<Pending>): (r: seq<Settlement>)
    ensures |r| == |pending|
  {
    seq(|pending|, i requires 0 <= i < |pending| => Settlement(pending[i], SessionClosed))
  }

  function Waiting(s: State): seq<Pending>
  {
    (if s.active.Some? then [s.active.value] else []) + s.queued
  }

  function Closed(s: State): State
  {
    if s.closed then s
        else s.(closed := true, timed := false, active := None, queued := [],
                settled := s.settled + AllClosed(Waiting(s)))
  }

  function Started(s: State, pending: Pending, accepted: bool): State
  {
    var started := s.(active := Some(pending), timed := true);
    if accepted then started else Closed(started)
  }

  /** The place of a kind in the queue, or the queue's length. */
  function PlaceOf(queued: seq<Pending>, kind: Kind): (i: nat)
    ensures i <= |queued|
    ensures i < |queued| ==> queued[i].kind == kind
    ensures forall j :: 0 <= j < i ==> queued[j].kind != kind
  {
    if queued == [] || queued[0].kind == kind then 0 else 1 + PlaceOf(queued[1..], kind)
  }

  function Queued(s: State, pending: Pending): State
  {
    var i := PlaceOf(s.queued, pending.kind);
    if i < |s.queued|
    then s.(queued := s.queued[i := pending], settled := s.settled + [Settlement(s.queued[i], Superseded)])
    else s.(queued := s.queued + [pending])
  }

  function Requested(s: State, kind: Kind, accepted: bool): State
  {
    if s.closed then s
    else
      var pending := Pending(s.sequence + 1, kind);
      var numbered := s.(sequence := s.sequence + 1);
      if s.active.None? then Started(numbered, pending, accepted) else Queued(numbered, pending)
  }

  function VerdictOn(pending: Pending, kind: Option<Kind>): Verdict
  {
    if kind.None? then WorkerError else if kind.value != pending.kind then UnexpectedKind else Resolved(kind.value)
  }

  /** A reply that settles the active request. */
  predicate Completes(s: State, e: Event)
  {
    e.Reply? && !s.closed && s.active.Some? && e.id == s.active.value.id
  }

  /** The state between settling the active request and starting the next. */
  function Done(s: State, answer: Option<Kind>): State
    requires s.active.Some?
  {
    s.(active := None, timed := false,
       settled := s.settled + [Settlement(s.active.value, VerdictOn(s.active.value, answer))])
  }

  function Answered(s: State, kind: Option<Kind>, accepted: bool): State
    requires s.active.Some?
  {
    var done := Done(s, kind);
    if done.queued == [] then done else Started(done.(queued := done.queued[1..]), done.queued[0], accepted)
  }

  function Next(s: State, e: Event): State
  {
    match e
    case Ask(kind, accepted) => Requested(s, kind, accepted)
    case Reply(_, kind, accepted) => if Completes(s, e) then Answered(s, kind, accepted) else s
    case Stop => Closed(s)
  }

  function Run(s: State, events: seq<Event>): State
  {
    if events == [] then s else Next(Run(s, events[..|events| - 1]), events[|events| - 1])
  }

  // ---------- The session ----------

  class InvestigationSearchSession {
    var sequence: nat
    var active: Option<Pending>
    var queued: seq<Pending>
    var closed: bool
    var timed: bool
    var settled: seq<Settlement>

    constructor ()
      ensures Snapshot() == INITIAL
    {
      sequence, active, queued, closed, timed, settled := 0, None, [], false, false, [];
    }

    function Snapshot(): State
      reads this
    {
      State(sequence, active, queued, closed, timed, settled)
    }

    method Close()
      modifies this
      ensures Snapshot() == Closed(old(Snapshot()))
    {
      if closed {
        return;
      }
      closed := true;
      timed := false;
      if active.Some? {
        settled := settled + [Settlement(active.value, SessionClosed)];
      }
      for i := 0 to |queued|
        invariant queued == old(queued) && closed && !timed && sequence == old(sequence) && active == old(active)
        invariant settled == old(settled) + AllClosed((if active.Some? then [active.value] else []) + queued[..i])
      {
        settled := settled + [Settlement(queued[i], SessionClosed)];
      }
      assert queued[..|queued|] == queued;
      active := None;
      queued := [];
    }

    method Start(pending: Pending, accepted: bool)
      modifies this
      ensures Snapshot() == Started(old(Snapshot()), pending, accepted)
    {
      active := Some(pending);
      timed := true;
      if !accepted {
        Close();
      }
    }

    method Request(kind: Kind, accepted: bool) returns (id: Option<nat>)
      modifies this
      ensures Snapshot() == Requested(old(Snapshot()), kind, accepted)
      ensures id == if old(closed) then None else Some(old(sequence) + 1)
    {
      if closed {
        return None;
      }
      sequence := sequence + 1;
      var pending := Pending(sequence, kind);
      if active.None? {
        Start(pending, accepted);
      } else {
        var place := PlaceOf(queued, kind);
        if place < |queued| {
          settled := settled + [Settlement(queued[place], Superseded)];
          queued := queued[place := pending];
        } else {
          queued := queued + [pending];
        }
      }
      return Some(pending.id);
    }

    method OnMessage(id: nat, kind: Option<Kind>, accepted: bool)
      modifies this
      ensures Snapshot() == Next(old(Snapshot()), Reply(id, kind, accepted))
    {
      if closed || active.None? || id != active.value.id {
        return;
      }
      var completed := active.value;
      timed := false;
      active := None;
      if kind.None? {
        settled := settled + [Settlement(completed, WorkerError)];
      } else if kind.value != completed.kind {
        settled := settled + [Settlement(completed, UnexpectedKind)];
      } else {
        settled := settled + [Settlement(completed, Resolved(kind.value))];
      }
      if queued != [] {
        var next := queued[0];
        queued := queued[1..];
        Start(next, accepted);
      }
    }
  }

  // ---------- Every request settles exactly once ----------

  function SettledPendings(settled: seq<Settlement>): (r: seq<Pending>)
    ensures |r| == |settled|
  {
    seq(|settled|, i requires 0 <= i < |settled| => settled[i].pending)
  }

  /** Every request made so far, wherever it is now. */
  function Known(s: State): multiset<Pending>
  {
    multiset(SettledPendings(s.settled)) + multiset(Waiting(s))
  }

  ghost predicate Made(known: multiset<Pending>, id: nat) { exists p :: p in known && p.id == id }

  /** Requests are numbered without gaps, and each is in one place. */
  ghost predicate EachOnce(s: State)
  {
    && (forall p :: p in Known(s) ==> 1 <= p.id <= s.sequence && Known(s)[p] == 1)
    && (forall p, q :: p in Known(s) && q in Known(s) && p.id == q.id ==> p == q)
    && (forall id :: 1 <= id <= s.sequence ==> Made(Known(s), id))
  }

  /**
   One timer exactly while one request is active; one queued request per kind,
   only behind an active one; nothing after closing.
   */
  ghost predicate WellQueued(s: State)
  {
    && (s.timed <==> s.active.Some?)
    && (s.queued != [] ==> s.active.Some?)
    && (s.closed ==> s.active.None? && s.queued == [])
    && (forall i, j :: 0 <= i < j < |s.queued| ==> s.queued[i].kind != s.queued[j].kind)
  }

  /** What waits in the queue is the latest request of its kind. */
  ghost predicate LatestQueued(s: State)
  {
    forall i, p :: 0 <= i < |s.queued| && p in Known(s) && p.kind == s.queued[i].kind && p != s.queued[i] ==>
      p.id < s.queued[i].id
  }

  /**
   A resolved promise was answered in its own kind, a superseded one gave way to
   a later request of its kind, and only closing leaves one unanswered.
   */
  ghost predicate HonestlySettled(s: State)
  {
    forall i :: 0 <= i < |s.settled| ==> Honest(s, s.settled[i])
  }

  ghost predicate Inv(s: State) { EachOnce(s) && WellQueued(s) && LatestQueued(s) && HonestlySettled(s) }

  lemma SettledAppend(a: seq<Settlement>, b: seq<Settlement>)
    ensures SettledPendings(a + b) == SettledPendings(a) + SettledPendings(b)
    ensures multiset(SettledPendings(a + b)) == multiset(SettledPendings(a)) + multiset(SettledPendings(b))
  {
  }

  lemma KnownAfterClose(s: State)
    ensures Known(Closed(s)) == Known(s)
  {
    if !s.closed {
      var w := Waiting(s);
      SettledAppend(s.settled, AllClosed(w));
      assert SettledPendings(AllClosed(w)) == w;
    }
  }

  lemma KnownAfterStart(s: State, pending: Pending, accepted: bool)
    requires s.active.None? && !s.closed
    ensures Known(Started(s, pending, accepted)) == Known(s) + multiset{pending}
  {
    var started := s.(active := Some(pending), timed := true);
    assert Waiting(started) == [pending] + Waiting(s);
    KnownAfterClose(started);
  }

  lemma KnownAfterReplacing(s: State, i: nat, pending: Pending)
    requires s.active.Some? && i < |s.queued|
    ensures Known(s.(queued := s.queued[i := pending], settled := s.settled + [Settlement(s.queued[i], Superseded)]))
        == Known(s) + multiset{pending}
  {
    hide Waiting, SettledPendings;
    var next := s.(queued := s.queued[i := pending], settled := s.settled + [Settlement(s.queued[i], Superseded)]);
    OneMoreSettled(s.settled, Settlement(s.queued[i], Superseded));
    WaitingReplaced(s, i, pending);
    SameWaiting(next, s.(queued := s.queued[i := pending]));
    Replacing(Waiting(s), i + 1, pending);
  }

  lemma SameWaiting(a: State, b: State)
    requires a.active == b.active && a.queued == b.queued
    ensures Waiting(a) == Waiting(b)
  {
  }

  lemma KnownAfterQueueing(s: State, pending: Pending)
    requires s.active.Some?
    ensures Known(Queued(s, pending)) == Known(s) + multiset{pending}
  {
    var i := PlaceOf(s.queued, pending.kind);
    if i < |s.queued| {
      hide Known;
      KnownAfterReplacing(s, i, pending);
    } else {
      assert Waiting(Queued(s, pending)) == Waiting(s) + [pending];
    }
  }

  lemma WaitingReplaced(s: State, i: nat, pending: Pending)
    requires s.active.Some? && i < |s.queued|
    ensures i + 1 < |Waiting(s)| && Waiting(s)[i + 1] == s.queued[i]
    ensures Waiting(s.(queued := s.queued[i := pending])) == Waiting(s)[i + 1 := pending]
  {
  }

  lemma OneMoreSettled(settled: seq<Settlement>, settlement: Settlement)
    ensures multiset(SettledPendings(settled + [settlement]))
        == multiset(SettledPendings(settled)) + multiset{settlement.pending}
  {
    SettledAppend(settled, [settlement]);
    assert SettledPendings([settlement]) == [settlement.pending];
  }

  lemma Replacing(s: seq<Pending>, i: nat, pending: Pending)
    requires i < |s|
    ensures multiset(s[i := pending]) + multiset{s[i]} == multiset(s) + multiset{pending}
  {
  }

  lemma KnownAfterRequest(s: State, kind: Kind, accepted: bool)
    requires !s.closed
    ensures Known(Requested(s, kind, accepted)) == Known(s) + multiset{Pending(s.sequence + 1, kind)}
  {
    hide Started, Queued, SettledPendings;
    var pending := Pending(s.sequence + 1, kind);
    var numbered := s.(sequence := s.sequence + 1);
    assert Known(numbered) == Known(s);
    if s.active.None? {
      KnownAfterStart(numbered, pending, accepted);
    } else {
      KnownAfterQueueing(numbered, pending);
    }
  }

  lemma KnownWhenDone(s: State, answer: Option<Kind>)
    requires s.active.Some?
    ensures Known(Done(s, answer)) == Known(s)
  {
    OneMoreSettled(s.settled, Settlement(s.active.value, VerdictOn(s.active.value, answer)));
    assert Waiting(s) == [s.active.value] + s.queued;
    assert Waiting(Done(s, answer)) == s.queued;
  }

  lemma KnownAfterAnswer(s: State, answer: Option<Kind>, accepted: bool)
    requires s.active.Some? && !s.closed
    ensures Known(Answered(s, answer, accepted)) == Known(s)
  {
    hide Started;
    KnownWhenDone(s, answer);
    var done := Done(s, answer);
    if s.queued != [] {
      var rest := done.(queued := done.queued[1..]);
      assert Waiting(done) == [done.queued[0]] + Waiting(rest);
      assert Known(done) == Known(rest) + multiset{done.queued[0]};
      KnownAfterStart(rest, done.queued[0], accepted);
    }
  }

  lemma KnownAfter(s: State, e: Event)
    ensures Known(Next(s, e))
        == if e.Ask? && !s.closed then Known(s) + multiset{Pending(s.sequence + 1, e.kind)} else Known(s)
    ensures Next(s, e).sequence == if e.Ask? && !s.closed then s.sequence + 1 else s.sequence
  {
    hide Known;
    match e {
      case Ask(kind, accepted) =>
        if !s.closed {
          KnownAfterRequest(s, kind, accepted);
        }
      case Reply(_, answer, accepted) =>
        if Completes(s, e) {
          KnownAfterAnswer(s, answer, accepted);
        }
      case Stop => KnownAfterClose(s);
    }
  }

  lemma EachOnceAfter(s: State, e: Event)
    requires EachOnce(s)
    ensures EachOnce(Next(s, e))
  {
    hide Next, Known;
    KnownAfter(s, e);
    if e.Ask? && !s.closed {
      var newest := Pending(s.sequence + 1, e.kind);
      var next := Next(s, e);
      assert newest in Known(next);
      forall id | 1 <= id <= next.sequence ensures Made(Known(next), id) {
        if id <= s.sequence {
          assert Made(Known(s), id);
          var p :| p in Known(s) && p.id == id;
          assert p in Known(next);
        }
      }
    }
  }

  lemma WellQueuedAfter(s: State, e: Event)
    requires WellQueued(s)
    ensures WellQueued(Next(s, e))
  {
  }

  /** The queue keeps its members; only a fresh request joins it. */
  lemma LatestQueuedAfter(s: State, e: Event)
    requires EachOnce(s) && LatestQueued(s) && WellQueued(s)
    ensures LatestQueued(Next(s, e))
  {
    hide Known;
    KnownAfter(s, e);
    var next := Next(s, e);
    forall i, p | 0 <= i < |next.queued| && p in Known(next) && p.kind == next.queued[i].kind && p != next.queued[i]
      ensures p.id < next.queued[i].id
    {
      var q := next.queued[i];
      if q in s.queued {
        if p in Known(s) {
          var j :| 0 <= j < |s.queued| && s.queued[j] == q;
        }
      }
    }
  }

  /** A settlement made by one step tells the truth about it. */
  ghost predicate Honest(s: State, settlement: Settlement)
  {
    match settlement.verdict
    case Resolved(kind) => kind == settlement.pending.kind
    case Superseded => HasNewer(Known(s), settlement.pending)
    case SessionClosed => s.closed
    case _ => true
  }

  ghost predicate HasNewer(known: multiset<Pending>, pending: Pending)
  {
    exists p :: p in known && p.kind == pending.kind && p.id > pending.id
  }

  lemma HonestStays(s: State, e: Event, settlement: Settlement)
    requires Honest(s, settlement)
    ensures Honest(Next(s, e), settlement)
  {
    hide Known;
    KnownAfter(s, e);
    if settlement.verdict.Superseded? {
      var p :| p in Known(s) && p.kind == settlement.pending.kind && p.id > settlement.pending.id;
      assert p in Known(Next(s, e));
    }
  }

  /** Settlements are only added, and what is added is honest. */
  lemma NewSettlementsAreHonest(s: State, e: Event)
    requires EachOnce(s)
    ensures s.settled <= Next(s, e).settled
    ensures forall i :: |s.settled| <= i < |Next(s, e).settled| ==> Honest(Next(s, e), Next(s, e).settled[i])
  {
    hide Known;
    var next := Next(s, e);
    KnownAfter(s, e);
    if e.Ask? && !s.closed && s.active.Some? {
      var place := PlaceOf(s.queued, e.kind);
      if place < |s.queued| {
        WaitingIsKnown(s, 1 + place);
        var newest := Pending(s.sequence + 1, e.kind);
        assert newest in Known(next) && newest.id > s.queued[place].id;
      }
    }
  }

  lemma WaitingIsKnown(s: State, i: nat)
    requires i < |Waiting(s)|
    ensures Waiting(s)[i] in Known(s)
  {
  }

  lemma HonestlySettledAfter(s: State, e: Event)
    requires EachOnce(s) && HonestlySettled(s)
    ensures HonestlySettled(Next(s, e))
  {
    hide Next, Honest;
    NewSettlementsAreHonest(s, e);
    var next := Next(s, e);
    forall i | 0 <= i < |next.settled| ensures Honest(next, next.settled[i]) {
      if i < |s.settled| {
        assert next.settled[i] == s.settled[i];
        HonestStays(s, e, s.settled[i]);
      }
    }
  }

  lemma {:induction false} RunKeepsInv(events: seq<Event>)
    ensures Inv(Run(INITIAL, events))
  {
    hide Next, EachOnce, WellQueued, LatestQueued, HonestlySettled;
    if events == [] {
      InitialInv();
    } else {
      var s, e := Run(INITIAL, events[..|events| - 1]), events[|events| - 1];
      RunKeepsInv(events[..|events| - 1]);
      EachOnceAfter(s, e);
      WellQueuedAfter(s, e);
      LatestQueuedAfter(s, e);
      HonestlySettledAfter(s, e);
    }
  }

  lemma InitialInv()
    ensures Inv(INITIAL)
  {
  }

  /** The settlements of one request. */
  function SettledTimes(settled: seq<Settlement>, id: nat): nat
  {
    if settled == [] then 0
        else SettledTimes(settled[..|settled| - 1], id) + (if settled[|settled| - 1].pending.id == id then 1 else 0)
  }

  predicate IsWaiting(s: State, id: nat) { exists i :: 0 <= i < |Waiting(s)| && Waiting(s)[i].id == id }

  lemma {:induction false} SettledTimesNone(settled: seq<Settlement>, id: nat)
    requires forall i :: 0 <= i < |settled| ==> settled[i].pending.id != id
    ensures SettledTimes(settled, id) == 0
  {
    if settled != [] {
      SettledTimesNone(settled[..|settled| - 1], id);
    }
  }

  lemma {:induction false} SettledTimesOne(settled: seq<Settlement>, id: nat, k: nat)
    requires k < |settled| && settled[k].pending.id == id
    requires forall i :: 0 <= i < |settled| && i != k ==> settled[i].pending.id != id
    ensures SettledTimes(settled, id) == 1
  {
    var n := |settled| - 1;
    if k == n {
      SettledTimesNone(settled[..n], id);
    } else {
      SettledTimesOne(settled[..n], id, k);
    }
  }

  lemma KnownTwice(s: State, i: nat, j: nat)
    requires i < |SettledPendings(s.settled)| && j < |SettledPendings(s.settled)| + |Waiting(s)|
    requires j != i && (SettledPendings(s.settled) + Waiting(s))[j] == SettledPendings(s.settled)[i]
    ensures Known(s)[SettledPendings(s.settled)[i]] >= 2
  {
    var all := SettledPendings(s.settled) + Waiting(s);
    assert Known(s) == multiset(all);
    if i < j {
      assert all == all[..i + 1] + all[i + 1..] && all[i] in all[..i + 1] && all[j] in all[i + 1..];
      assert multiset(all) == multiset(all[..i + 1]) + multiset(all[i + 1..]);
    } else {
      assert all == all[..j + 1] + all[j + 1..] && all[j] in all[..j + 1] && all[i] in all[j + 1..];
      assert multiset(all) == multiset(all[..j + 1]) + multiset(all[j + 1..]);
    }
  }

  lemma WaitingIsUnsettled(s: State, w: nat, i: nat)
    requires EachOnce(s) && w < |Waiting(s)| && i < |s.settled|
    ensures s.settled[i].pending.id != Waiting(s)[w].id
  {
    hide Waiting;
    WaitingIsKnown(s, w);
    SettledIsKnown(s, i);
    var settled, waiting := SettledPendings(s.settled), Waiting(s);
    if settled[i].id == waiting[w].id {
      assert (settled + waiting)[|settled| + w] == settled[i];
      KnownTwice(s, i, |settled| + w);
    }
  }

  lemma SettledApart(s: State, i: nat, k: nat)
    requires EachOnce(s) && i < |s.settled| && k < |s.settled| && i != k
    ensures s.settled[i].pending.id != s.settled[k].pending.id
  {
    hide Waiting;
    SettledIsKnown(s, k);
    SettledIsKnown(s, i);
    var settled := SettledPendings(s.settled);
    if settled[i].id == settled[k].id {
      assert (settled + Waiting(s))[k] == settled[i];
      KnownTwice(s, i, k);
    }
  }

  lemma SettledOrWaiting(s: State, id: nat)
    requires EachOnce(s) && 1 <= id <= s.sequence
    ensures IsWaiting(s, id) || exists k :: 0 <= k < |s.settled| && s.settled[k].pending.id == id
  {
    hide Waiting;
    assert Made(Known(s), id);
    var p :| p in Known(s) && p.id == id;
    if p in Waiting(s) {
      var w :| 0 <= w < |Waiting(s)| && Waiting(s)[w] == p;
    } else {
      assert p in SettledPendings(s.settled);
    }
  }

  lemma OneSettlementOrNone(s: State, id: nat)
    requires EachOnce(s) && 1 <= id <= s.sequence
    ensures SettledTimes(s.settled, id) == if IsWaiting(s, id) then 0 else 1
  {
    hide Waiting, Known, EachOnce, SettledTimes;
    if IsWaiting(s, id) {
      var w :| 0 <= w < |Waiting(s)| && Waiting(s)[w].id == id;
      forall i | 0 <= i < |s.settled| ensures s.settled[i].pending.id != id {
        WaitingIsUnsettled(s, w, i);
      }
      SettledTimesNone(s.settled, id);
    } else {
      SettledOrWaiting(s, id);
      var k :| 0 <= k < |s.settled| && s.settled[k].pending.id == id;
      forall i | 0 <= i < |s.settled| && i != k ensures s.settled[i].pending.id != id {
        SettledApart(s, i, k);
      }
      SettledTimesOne(s.settled, id, k);
    }
  }

  /**
   Exactly once: over every run, a request that is not waiting has been settled
   once, one that is waiting never, and a closed session keeps nobody waiting.
   */
  lemma EveryRequestSettlesOnce(events: seq<Event>, id: nat)
    requires 1 <= id <= Run(INITIAL, events).sequence
    ensures var s := Run(INITIAL, events);
      && SettledTimes(s.settled, id) == (if IsWaiting(s, id) then 0 else 1)
      && (s.closed ==> !IsWaiting(s, id))
  {
    hide Run, EachOnce, LatestQueued, HonestlySettled, SettledTimes;
    RunKeepsInv(events);
    OneSettlementOrNone(Run(INITIAL, events), id);
  }

  /** What a caller may conclude from how a request was settled, over every run. */
  lemma SettlementsAreHonest(events: seq<Event>, i: nat)
    requires i < |Run(INITIAL, events).settled|
    ensures Honest(Run(INITIAL, events), Run(INITIAL, events).settled[i])
  {
    hide Run, EachOnce, WellQueued, LatestQueued, Honest;
    RunKeepsInv(events);
  }

  /** Stale replies: once a request was settled in any way, later replies to it change nothing. */
  lemma StaleRepliesAreIgnored(events: seq<Event>, id: nat, answer: Option<Kind>, accepted: bool)
    requires 1 <= id <= Run(INITIAL, events).sequence && SettledTimes(Run(INITIAL, events).settled, id) > 0
    ensures Next(Run(INITIAL, events), Reply(id, answer, accepted)) == Run(INITIAL, events)
  {
    hide Run, EachOnce, LatestQueued, HonestlySettled, SettledTimes;
    var s := Run(INITIAL, events);
    RunKeepsInv(events);
    OneSettlementOrNone(s, id);
    if s.active.Some? {
      assert Waiting(s)[0] == s.active.value;
    }
  }

  lemma SettledIsKnown(s: State, i: nat)
    requires i < |s.settled|
    ensures SettledPendings(s.settled)[i] in Known(s)
  {
  }

  // ---------- Places in the queue ----------

  /** Kind `kind` waits with `ahead` other kinds before it. */
  predicate WaitsBehind(s: State, kind: Kind, ahead: nat)
  {
    ahead < |s.queued| && s.queued[ahead].kind == kind
  }

  /** Only completions move the queue; a newer request of a waiting kind takes over its place. */
  lemma PlaceAfter(s: State, e: Event, kind: Kind, ahead: nat)
    requires WellQueued(s) && WaitsBehind(s, kind, ahead) && !Next(s, e).closed
    ensures var next := Next(s, e);
      if !Completes(s, e) then WaitsBehind(next, kind, ahead)
      else if ahead == 0 then next.active == Some(s.queued[0])
      else WaitsBehind(next, kind, ahead - 1)
  {
  }

  /** How many of the events complete an active request. */
  function Completions(s: State, events: seq<Event>): nat
  {
    if events == [] then 0
    else
      var earlier, last := events[..|events| - 1], events[|events| - 1];
      Completions(s, earlier) + if Completes(Run(s, earlier), last) then 1 else 0
  }

  lemma ClosedStaysClosed(s: State, e: Event)
    ensures s.closed ==> Next(s, e).closed
  {
  }

  lemma {:induction false} QueueAdvances(s: State, events: seq<Event>, kind: Kind, ahead: nat)
    requires WellQueued(s) && WaitsBehind(s, kind, ahead) && !Run(s, events).closed
    requires Completions(s, events) <= ahead
    ensures WellQueued(Run(s, events)) && WaitsBehind(Run(s, events), kind, ahead - Completions(s, events))
  {
    hide Next, WellQueued, WaitsBehind, Completes;
    if events != [] {
      var before, e := events[..|events| - 1], events[|events| - 1];
      ClosedStaysClosed(Run(s, before), e);
      QueueAdvances(s, before, kind, ahead);
      WellQueuedAfter(Run(s, before), e);
      PlaceAfter(Run(s, before), e, kind, ahead - Completions(s, before));
    }
  }

  /**
   Bounded waiting: while the session lives, a kind with `ahead` kinds before it
   starts at exactly completion number `ahead + 1`, counting the active request,
   however often it is replaced meanwhile; and what starts then is the latest
   request of its kind.
   */
  lemma QueuedKindStartsOnTime(earlier: seq<Event>, events: seq<Event>, e: Event, kind: Kind, ahead: nat)
    requires var s := Run(INITIAL, earlier);
      WaitsBehind(s, kind, ahead) && Completions(s, events) == ahead && Completes(Run(s, events), e)
          && !Next(Run(s, events), e).closed
    ensures ahead <= 6
    ensures var next := Next(Run(Run(INITIAL, earlier), events), e);
      && next.active.Some? && next.active.value.kind == kind
      && forall p :: p in Known(next) && p.kind == kind && p != next.active.value ==> p.id < next.active.value.id
  {
    hide Next, Completes, Run, EachOnce, HonestlySettled, Known, Completions;
    var s := Run(INITIAL, earlier);
    RunKeepsInv(earlier);
    QueueIsShort(s);
    ClosedStaysClosed(Run(s, events), e);
    QueueAdvances(s, events, kind, ahead);
    PlaceAfter(Run(s, events), e, kind, 0);
    RunsJoin(earlier, events);
    RunKeepsInv(earlier + events);
    KnownAfter(Run(s, events), e);
    CompletionIsNoRequest(Run(s, events), e);
  }

  lemma CompletionIsNoRequest(s: State, e: Event)
    requires Completes(s, e)
    ensures !e.Ask?
  {
  }

  lemma {:induction false} RunsJoin(a: seq<Event>, b: seq<Event>)
    ensures Run(INITIAL, a + b) == Run(Run(INITIAL, a), b)
  {
    if b == [] {
      assert a + b == a;
    } else {
      assert (a + b)[..|a + b| - 1] == a + b[..|b| - 1];
      RunsJoin(a, b[..|b| - 1]);
    }
  }

  function KindNumber(kind: Kind): nat
  {
    match kind
    case Build => 0
    case Search => 1
    case Preview => 2
    case History => 3
    case Infrastructure => 4
    case InfrastructureSnapshots => 5
    case InfrastructureRelationships => 6
  }

  function Numbers(queued: seq<Pending>): set<nat>
  {
    if queued == [] then {} else Numbers(queued[..|queued| - 1]) + {KindNumber(queued[|queued| - 1].kind)}
  }

  /** At most one queued request of each of the seven kinds. */
  lemma QueueIsShort(s: State)
    requires WellQueued(s)
    ensures |s.queued| <= 7
  {
    AsManyNumbers(s.queued);
    forall x | x in Numbers(s.queued) ensures x < 7 {
      NumbersAreOfKinds(s.queued, x);
    }
    Pigeons(Numbers(s.queued), 7);
  }

  lemma KindsAreNumbered(a: Kind, b: Kind)
    requires a != b
    ensures KindNumber(a) != KindNumber(b)
  {
  }

  lemma {:induction false} NumbersAreOfKinds(queued: seq<Pending>, x: nat)
    requires x in Numbers(queued)
    ensures x < 7 && exists i :: 0 <= i < |queued| && KindNumber(queued[i].kind) == x
  {
    hide KindNumber;
    var n := |queued| - 1;
    NumberIsSmall(queued[n].kind);
    if x != KindNumber(queued[n].kind) {
      NumbersAreOfKinds(queued[..n], x);
      var i :| 0 <= i < n && KindNumber(queued[..n][i].kind) == x;
      assert KindNumber(queued[i].kind) == x;
    }
  }

  lemma {:induction false} AsManyNumbers(queued: seq<Pending>)
    requires forall i, j :: 0 <= i < j < |queued| ==> queued[i].kind != queued[j].kind
    ensures |Numbers(queued)| == |queued|
  {
    hide KindNumber;
    if queued != [] {
      var n := |queued| - 1;
      AsManyNumbers(queued[..n]);
      var last := KindNumber(queued[n].kind);
      if last in Numbers(queued[..n]) {
        NumbersAreOfKinds(queued[..n], last);
        var i :| 0 <= i < n && KindNumber(queued[..n][i].kind) == last;
        KindsAreNumbered(queued[i].kind, queued[n].kind);
      }
    }
  }

  lemma NumberIsSmall(kind: Kind)
    ensures KindNumber(kind) < 7
  {
  }

  lemma {:induction false} Pigeons(numbers: set<nat>, n: nat)
    requires forall x :: x in numbers ==> x < n
    ensures |numbers| <= n
  {
    if n == 0 {
      assert numbers == {};
    } else {
      Pigeons(numbers - {n - 1}, n - 1);
    }
  }
}

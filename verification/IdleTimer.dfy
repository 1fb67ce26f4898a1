/**
 The idle lock of an encrypted workspace: activity only records a time, and one
 pending check re-arms itself for the rest of the interval or expires.
 */
module IdleTimer {
  import opened Basics

  /** `None` stands for a reading that is not a finite number. */
  type Reading = Option<int>

  /** An expiry, with the activity it counts from. */
  datatype Expiry = Expiry(at: Reading, last: Reading)

  datatype State = State(duration: nat, last: Reading, expired: bool, disposed: bool, pending: Option<int>,
                         expiries: seq<Expiry>)

  /** `Callback` is the scheduled check, `Check` one asked for by the page. */
  datatype Event = Activity(now: Reading, again: Reading) | Check(now: Reading) | Callback(now: Reading) | Dispose

  // ---------- What each call does ----------

  predicate IdleLongEnough(s: State, now: Reading)
  {
    now.None? || s.last.None? || now.value < s.last.value || now.value - s.last.value >= s.duration
  }

  function Checked(s: State, now: Reading): State
  {
    if s.disposed || s.expired || s.duration == 0 then s.(pending := None)
    else if IdleLongEnough(s, now)
        then s.(pending := None, expired := true, expiries := s.expiries + [Expiry(now, s.last)])
    else s.(pending := Some(now.value + (s.duration - (now.value - s.last.value))))
  }

  function Active(s: State, now: Reading, again: Reading): State
  {
    if s.disposed || s.duration == 0 then s
    else if s.expired then Checked(s.(last := now, expired := false), again)
    else s.(last := now)
  }

  function Next(s: State, e: Event): State
  {
    match e
    case Activity(now, again) => Active(s, now, again)
    case Check(now) => Checked(s, now)
    case Callback(now) => Checked(s, now)
    case Dispose => s.(disposed := true, pending := None)
  }

  function Started(duration: nat, first: Reading, second: Reading): State
  {
    Checked(State(duration, first, false, false, None, []), second)
  }

  class WorkspaceIdleTimer {
    const duration: nat
    var last: Reading
    var expired: bool
    var disposed: bool
    var pending: Option<int>
    ghost var expiries: seq<Expiry>

    constructor (minutes: nat, first: Reading, second: Reading)
      ensures Snapshot() == Started(minutes * 60_000, first, second)
    {
      duration, last, expired, disposed, pending, expiries := minutes * 60_000, first, false, false, None, [];
      new;
      CheckNow(second);
    }

    ghost function Snapshot(): State
      reads this
    {
      State(duration, last, expired, disposed, pending, expiries)
    }

    method CheckNow(now: Reading)
      modifies this`pending, this`expired, this`expiries
      ensures Snapshot() == Checked(old(Snapshot()), now)
    {
      pending := None;
      if disposed || expired || duration == 0 {
        return;
      }
      if now.None? || last.None? || now.value - last.value < 0 || now.value - last.value >= duration {
        expired := true;
        expiries := expiries + [Expiry(now, last)];
      } else {
        pending := Some(now.value + (duration - (now.value - last.value)));
      }
    }

    method RecordActivity(now: Reading, again: Reading)
      modifies this
      ensures Snapshot() == Active(old(Snapshot()), now, again)
    {
      if disposed || duration == 0 {
        return;
      }
      last := now;
      if expired {
        expired := false;
        CheckNow(again);
      }
    }

    method DisposeTimer()
      modifies this`disposed, this`pending
      ensures Snapshot() == Next(old(Snapshot()), Dispose)
    {
      disposed := true;
      pending := None;
    }
  }

  // ---------- A monotone clock and a scheduler at most `lateness` late ----------

  function TimeOf(e: Event): Reading
  {
    match e
    case Activity(now, _) => now
    case Check(now) => now
    case Callback(now) => now
    case Dispose => None
  }

  function Latest(time: int, e: Event): int
  {
    if e.Activity? && e.again.Some? then e.again.value else if TimeOf(e).Some? then TimeOf(e).value else time
  }

  /** The event comes after `time`, no later than the pending check allows; the scheduled check never comes early. */
  predicate Timely(s: State, time: int, e: Event, lateness: nat)
  {
    && (e.Dispose? || (TimeOf(e).Some? && time <= TimeOf(e).value))
    && (e.Activity? ==> e.again.Some? && e.now.value <= e.again.value)
    && (e.Activity? && s.expired ==> e.again.value <= e.now.value + s.duration + lateness)
    && (s.pending.Some? && TimeOf(e).Some? ==> Latest(time, e) <= s.pending.value + lateness)
    && (e.Callback? ==> s.pending.Some? && s.pending.value <= e.now.value)
  }

  ghost predicate TimelyRun(s: State, time: int, events: seq<Event>, lateness: nat)
    decreases |events|
  {
    events == []
        || (Timely(s, time, events[0], lateness)
            && TimelyRun(Next(s, events[0]), Latest(time, events[0]), events[1..], lateness))
  }

  function Run(s: State, events: seq<Event>): State
    decreases |events|
  {
    if events == [] then s else Run(Next(s, events[0]), events[1..])
  }

  predicate Armed(s: State) { s.duration > 0 && !s.expired && !s.disposed }

  /** While armed there is one pending check, due no later than a full interval after the last activity. */
  predicate Inv(s: State, time: int)
  {
    && s.last.Some? && s.last.value <= time
    && (s.pending.Some? <==> Armed(s))
    && (s.pending.Some? ==> s.pending.value <= s.last.value + s.duration)
  }

  predicate OnTime(x: Expiry, duration: nat, lateness: nat)
  {
    x.at.Some? && x.last.Some? && x.last.value + duration <= x.at.value <= x.last.value + duration + lateness
  }

  lemma StepKeepsInv(s: State, time: int, e: Event, lateness: nat)
    requires Inv(s, time) && Timely(s, time, e, lateness)
    ensures Inv(Next(s, e), Latest(time, e)) && Next(s, e).duration == s.duration
    ensures s.expiries <= Next(s, e).expiries && |Next(s, e).expiries| <= |s.expiries| + 1
    ensures |Next(s, e).expiries| > |s.expiries| ==>
      (Armed(s) || e.Activity?) && Next(s, e).expired && OnTime(Next(s, e).expiries[|s.expiries|], s.duration, lateness)
  {
  }

  function EndTime(time: int, events: seq<Event>): int
    decreases |events|
  {
    if events == [] then time else EndTime(Latest(time, events[0]), events[1..])
  }

  lemma {:induction false} RunKeepsInv(s: State, time: int, events: seq<Event>, lateness: nat)
    requires Inv(s, time) && TimelyRun(s, time, events, lateness)
    requires forall i :: 0 <= i < |s.expiries| ==> OnTime(s.expiries[i], s.duration, lateness)
    ensures Run(s, events).duration == s.duration && Inv(Run(s, events), EndTime(time, events))
    ensures forall i :: 0 <= i < |Run(s, events).expiries| ==> OnTime(Run(s, events).expiries[i], s.duration, lateness)
    decreases |events|
  {
    hide Inv, Next, OnTime, Latest;
    if events != [] {
      StepKeepsInv(s, time, events[0], lateness);
      RunKeepsInv(Next(s, events[0]), Latest(time, events[0]), events[1..], lateness);
    }
  }

  /**
   With a monotone clock and no reading more than `lateness` late, every expiry
   comes at least a full idle interval after the last activity and at most
   `lateness` after that deadline, and while armed exactly one check is pending.
   Creating the timer reads the clock twice; the second reading may already be due.
   */
  lemma ExpiresOnTime(duration: nat, first: int, second: int, events: seq<Event>, lateness: nat)
    requires first <= second <= first + duration + lateness
    requires TimelyRun(Started(duration, Some(first), Some(second)), second, events, lateness)
    ensures var end := Run(Started(duration, Some(first), Some(second)), events);
      && (forall i :: 0 <= i < |end.expiries| ==> OnTime(end.expiries[i], duration, lateness))
      && (end.pending.Some? <==> Armed(end))
      && (end.pending.Some? ==> end.last.Some? && end.pending.value <= end.last.value + end.duration)
  {
    RunKeepsInv(Started(duration, Some(first), Some(second)), second, events, lateness);
  }

  /** Once per idle period: after an expiry nothing but new activity can lead to another. */
  lemma {:induction false} ExpiresOncePerIdlePeriod(s: State, events: seq<Event>)
    requires s.expired && forall i :: 0 <= i < |events| ==> !events[i].Activity?
    ensures Run(s, events).expiries == s.expiries && Run(s, events).expired
    decreases |events|
  {
    if events != [] {
      ExpiresOncePerIdlePeriod(Next(s, events[0]), events[1..]);
    }
  }

  /**
   A clock that jumps back, or stops giving readings, never extends an unlocked
   session: the next check expires it.
   */
  lemma RollbackExpires(s: State, now: Reading)
    requires Armed(s) && s.last.Some? && (now.None? || now.value < s.last.value)
    ensures Checked(s, now).expired && Checked(s, now).expiries == s.expiries + [Expiry(now, s.last)]
        && Checked(s, now).pending.None?
  {
  }
}

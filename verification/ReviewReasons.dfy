/**
 Where review items come from: the priority and due time each builder gives its
 items, and the reason shown beside them. The reason "overdue work is listed
 first" is shown only beside items of which it is true.
 */
module ReviewReasons {
  import opened Basics
  import opened Permutations
  import opened ReviewOrder
  import opened TopK
  import opened ReviewAdmission

  datatype CaseStatus = Escalated | Reviewing | OtherStatus

  /** The states of an action that is still open. */
  datatype ActionState = Drafting | ReadyForReview | Reviewed | Authorised | Submitted | Acknowledged

  datatype EffectState = StillObserved | Unavailable | OtherEffect

  datatype CertificateKind = Expiry | ExpiredAcknowledgement | RetainedDigest | OtherKind

  datatype CertificateState = ExpiredState | ReviewState | OtherState

  /**
   What an item is built from. The last three are built outside the inbox's own
   builders and carry their own reasons.
   */
  datatype Source =
    | SavedCase(status: CaseStatus)
    | EvidenceGap(contradictions: nat, limitedSource: bool)
    | CaseAction(state: ActionState, dueAt: Option<int>, followUpAt: Option<int>, deadlines: seq<Option<int>>)
    | EffectReview(effect: EffectState, followUp: int)
    | WatchlistChange(single: bool, danger: bool)
    | BulkSession(errors: nat)
    | Projected(given: Option<Priority>, due: Option<int>)
    | OrphanedDecision(reviewDueAt: Option<int>, expiresAt: Option<int>)
    | CertificateFinding(kind: CertificateKind, finding: CertificateState, notAfter: Option<int>)

  datatype Reason =
    | OverdueFirst | ByDueTime | UrgentWork | HighWork | GeneralOrder
    | TimeArrived | LocalOrder | LifecycleArrived | SourceUnavailable
    | DigestAvailable | ExpiryPassed | DiffersFromPosture | CertificateOrder

  // ---------- Due times ----------

  /** The first of the dates in time, those missing left out. */
  function Earliest(dates: seq<Option<int>>): Option<int>
  {
    if dates == [] then None
    else
      var first, rest := dates[0], Earliest(dates[1..]);
      if first.None? || (rest.Some? && rest.value < first.value) then rest else first
  }

  predicate Passed(date: Option<int>, now: Option<int>) { date.Some? && now.Some? && date.value <= now.value }

  lemma {:induction false} EarliestHasPassed(dates: seq<Option<int>>, now: Option<int>)
    ensures Passed(Earliest(dates), now) <==> exists i :: 0 <= i < |dates| && Passed(dates[i], now)
  {
    if dates != [] {
      EarliestHasPassed(dates[1..], now);
      assert forall i :: 0 < i < |dates| ==> dates[i] == dates[1..][i - 1];
      if j :| 0 <= j < |dates[1..]| && Passed(dates[1..][j], now) {
        assert Passed(dates[j + 1], now);
      }
    }
  }

  function DueOf(source: Source): Option<int>
  {
    match source
    case CaseAction(_, dueAt, followUpAt, deadlines) => Earliest([Earliest([dueAt, followUpAt])] + deadlines)
    case EffectReview(_, followUp) => Some(followUp)
    case Projected(_, due) => due
    case OrphanedDecision(reviewDueAt, expiresAt) => if reviewDueAt.Some? then reviewDueAt else expiresAt
    case CertificateFinding(kind, _, notAfter) =>
        if kind.Expiry? || kind.ExpiredAcknowledgement? then notAfter else None
    case _ => None
  }

  // ---------- Priorities ----------

  function UrgentOr(overdue: bool, high: bool): Priority
  {
    if overdue then Urgent else if high then High else Normal
  }

  function PriorityOf(source: Source, now: Option<int>): Priority
  {
    match source
    case SavedCase(status) => UrgentOr(status.Escalated?, status.Reviewing?)
    case EvidenceGap(contradictions, limitedSource) => UrgentOr(false, contradictions > 0 || limitedSource)
    case CaseAction(state, _, _, _) =>
      UrgentOr(Passed(DueOf(source), now),
               state.ReadyForReview? || state.Reviewed? || state.Authorised? || state.Submitted?)
    case EffectReview(effect, _) => UrgentOr(Passed(DueOf(source), now), effect.StillObserved? || effect.Unavailable?)
    case WatchlistChange(single, danger) => UrgentOr(false, !single || danger)
    case BulkSession(errors) => UrgentOr(false, errors > 0)
    case Projected(given, due) => if given.Some? then given.value else UrgentOr(false, Passed(due, now))
    case OrphanedDecision(reviewDueAt, expiresAt) => UrgentOr(false, Passed(reviewDueAt, now) || Passed(expiresAt, now))
    case CertificateFinding(_, finding, _) => UrgentOr(false, finding.ExpiredState? || finding.ReviewState?)
  }

  // ---------- Reasons ----------

  /** `rankingReason`, for the items of the inbox's own builders. */
  function RankingReason(priority: Priority, dueAt: Option<int>, now: Option<int>): Reason
  {
    if Passed(dueAt, now) then OverdueFirst
    else if dueAt.Some? then ByDueTime
    else
      match priority
      case Urgent => UrgentWork
      case High => HighWork
      case Normal => GeneralOrder
  }

  predicate OwnBuilder(source: Source)
  {
    !source.Projected? && !source.OrphanedDecision? && !source.CertificateFinding?
  }

  function ReasonOf(source: Source, now: Option<int>): Reason
  {
    match source
    case Projected(_, due) => if Passed(due, now) then TimeArrived else LocalOrder
    case OrphanedDecision(reviewDueAt, expiresAt) =>
      if Passed(reviewDueAt, now) || Passed(expiresAt, now) then LifecycleArrived else SourceUnavailable
    case CertificateFinding(kind, finding, _) =>
      if kind.RetainedDigest? then DigestAvailable
      else if finding.ExpiredState? then ExpiryPassed
      else if finding.ReviewState? then DiffersFromPosture
      else CertificateOrder
    case _ => RankingReason(PriorityOf(source, now), DueOf(source), now)
  }

  /** An item as its builder makes it. */
  predicate BuiltFrom(item: Item, source: Source, now: Option<int>)
  {
    item.priority == PriorityOf(source, now) && item.dueAt == DueOf(source)
  }

  /** An open action is urgent exactly when one of its own dates or an unanswered request's deadline has passed. */
  lemma ActionUrgentWhenAnyDatePassed(source: Source, now: Option<int>)
    requires source.CaseAction?
    ensures PriorityOf(source, now) == Urgent <==>
      || Passed(source.dueAt, now) || Passed(source.followUpAt, now)
      || exists i :: 0 <= i < |source.deadlines| && Passed(source.deadlines[i], now)
  {
    var own := [source.dueAt, source.followUpAt];
    var dates := [Earliest(own)] + source.deadlines;
    EarliestHasPassed(own, now);
    EarliestHasPassed(dates, now);
    assert Passed(own[0], now) || Passed(own[1], now) <==> exists i :: 0 <= i < |own| && Passed(own[i], now);
    assert Passed(dates[0], now) <==> Passed(Earliest(own), now);
    if i :| 0 <= i < |source.deadlines| && Passed(source.deadlines[i], now) {
      assert dates[i + 1] == source.deadlines[i];
    }
    if i :| 1 <= i < |dates| && Passed(dates[i], now) {
      assert dates[i] == source.deadlines[i - 1];
    }
  }

  /**
   The reason is shown exactly beside the overdue items of the inbox's own
   builders, and those are urgent.
   */
  lemma OverdueReasonIsEarned(item: Item, source: Source, now: Option<int>)
    requires BuiltFrom(item, source, now)
    ensures ReasonOf(source, now) == OverdueFirst <==> OwnBuilder(source) && Overdue(item, now)
    ensures ReasonOf(source, now) == OverdueFirst ==> item.priority == Urgent
  {
  }

  /** It is true of them: such an item comes before every item that is not overdue. */
  lemma OverdueReasonIsTrue(item: Item, source: Source, other: Item, now: Option<int>)
    requires BuiltFrom(item, source, now) && ReasonOf(source, now) == OverdueFirst && !Overdue(other, now)
    ensures Compare(item, other, now) < 0
  {
    hide Compare;
    OverdueReasonIsEarned(item, source, now);
    RankingReasons(item, other, now);
  }

  /**
   And of the inbox as a whole: an item shown with that reason stands before every
   item that is not overdue, and none is left out while such an item is admitted.
   */
  lemma OverdueWorkIsListedFirst(inbox: seq<Item>, all: seq<Item>, limit: nat, now: Option<int>, item: Item,
                                 source: Source, j: nat)
    requires IsTop(inbox, all, limit, ItemOrder(now))
    requires item in all && BuiltFrom(item, source, now) && ReasonOf(source, now) == OverdueFirst
    requires j < |inbox| && !Overdue(inbox[j], now)
    ensures item in inbox && forall i :: 0 <= i < |inbox| && inbox[i] == item ==> i < j
  {
    hide Compare, BuiltFrom, ReasonOf, Overdue;
    OverdueReasonIsTrue(item, source, inbox[j], now);
    CompareFlips(item, inbox[j], now);
    var dropped :| Splits(inbox, dropped, all, limit, ItemOrder(now));
    SameMembers(inbox + dropped, all, item);
    assert !ItemOrder(now)(inbox[j], item);
    assert inbox[j] in inbox && item !in dropped;
  }

  /** Dated work that is not overdue is ordered by its due time among items of one priority and lifecycle. */
  lemma DatedWorkByDueTime(a: Item, s: Source, b: Item, t: Source, now: Option<int>)
    requires BuiltFrom(a, s, now) && BuiltFrom(b, t, now)
    requires ReasonOf(s, now) == ByDueTime && ReasonOf(t, now) == ByDueTime
    requires a.priority == b.priority && LifecycleRank(a) == LifecycleRank(b) && a.dueAt.value < b.dueAt.value
    ensures Compare(a, b, now) < 0
  {
    hide Compare;
    OverdueReasonIsEarned(a, s, now);
    OverdueReasonIsEarned(b, t, now);
    RankingReasons(a, b, now);
  }

  /**
   The reasons that speak of a priority are shown beside undated items of that
   priority; urgent ones are escalated Cases.
   */
  lemma PriorityReasonsAreTrue(source: Source, now: Option<int>)
    ensures ReasonOf(source, now) == UrgentWork <==> source == SavedCase(Escalated)
    ensures ReasonOf(source, now) == HighWork ==> PriorityOf(source, now) == High && DueOf(source).None?
    ensures ReasonOf(source, now) == GeneralOrder ==> PriorityOf(source, now) == Normal && DueOf(source).None?
  {
  }
}

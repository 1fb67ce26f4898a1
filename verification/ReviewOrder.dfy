/**
 The admission order of the analyst review inbox: which of two review items is
 listed first, and the proof that this is one total order up to identity.
 */
module ReviewOrder {
  import opened Basics

  datatype Priority = Urgent | High | Normal
  datatype Completeness = Inconclusive | Partial | Complete
  datatype LifecycleState = Open | Expected | Suppressed | Resolved | Expired | Invalidated | Recurred | Orphaned
  datatype Lifecycle = Lifecycle(state: LifecycleState, expired: bool, invalidated: bool, recurred: bool,
                                 reviewDue: bool)
  datatype Family =
    | Case | Registration | Dns | Routing | Http | CertificateTransparency | LiveTls | Caa | CertificateIdentity
    | Comparison | DesiredPosture | Suppression | ChangeWindow | Relationship | Bulk | Rule | Packet

  /** Times are milliseconds since the epoch; `None` when missing or unreadable. */
  datatype Item = Item(
    subjectKey: Text,
    id: Text,
    family: Family,
    priority: Priority,
    dueAt: Option<int>,
    completeness: Completeness,
    observedAt: Option<int>,
    lifecycle: Option<Lifecycle>,
    title: Text)

  function PriorityRank(p: Priority): int
  {
    match p
    case Urgent => 0
    case High => 1
    case Normal => 2
  }

  function CompletenessRank(c: Completeness): int
  {
    match c
    case Inconclusive => 0
    case Partial => 1
    case Complete => 2
  }

  function LifecycleRank(item: Item): int
  {
    if item.lifecycle.None? then 3
    else if item.lifecycle.value.invalidated || item.lifecycle.value.recurred then 0
    else if item.lifecycle.value.expired || item.lifecycle.value.reviewDue then 1
    else if item.lifecycle.value.state == Orphaned then 2
    else 3
  }

  /** An unreadable clock makes nothing overdue. */
  predicate Overdue(item: Item, now: Option<int>)
  {
    item.dueAt.Some? && now.Some? && item.dueAt.value <= now.value
  }

  /** Strings in UTF-16 code unit order. */
  function CompareCodeUnits(a: Text, b: Text): int
  {
    if a == [] then (if b == [] then 0 else -1)
    else if b == [] then 1
    else if a[0] != b[0] then (if a[0] < b[0] then -1 else 1)
    else CompareCodeUnits(a[1..], b[1..])
  }

  function Then(first: int, second: int): int { if first != 0 then first else second }

  /** A missing due time counts as infinitely late. */
  function CompareDue(a: Option<int>, b: Option<int>): int
  {
    if a == b then 0 else if a.None? then 1 else if b.None? then -1 else a.value - b.value
  }

  /** Unknown observation times first, then the newest. */
  function CompareObserved(a: Option<int>, b: Option<int>): int
  {
    if a.Some? != b.Some? then (if a.Some? then 1 else -1)
    else if a.Some? then b.value - a.value
    else 0
  }

  function CompareOverdue(a: Item, b: Item, now: Option<int>): int
  {
    if Overdue(a, now) == Overdue(b, now) then 0 else if Overdue(a, now) then -1 else 1
  }

  /** `compareAnalystReviewAdmissionAt`: negative when `a` is listed before `b`. */
  function Compare(a: Item, b: Item, now: Option<int>): int
  {
    Then(PriorityRank(a.priority) - PriorityRank(b.priority),
    Then(CompareOverdue(a, b, now),
    Then(LifecycleRank(a) - LifecycleRank(b),
    Then(CompareDue(a.dueAt, b.dueAt),
    Then(CompletenessRank(a.completeness) - CompletenessRank(b.completeness),
    Then(CompareObserved(a.observedAt, b.observedAt),
    Then(CompareCodeUnits(a.subjectKey, b.subjectKey), CompareCodeUnits(a.id, b.id))))))))
  }

  lemma {:induction false} CodeUnitsFlip(a: Text, b: Text)
    ensures CompareCodeUnits(a, b) == -CompareCodeUnits(b, a)
  {
    if a != [] && b != [] && a[0] == b[0] {
      CodeUnitsFlip(a[1..], b[1..]);
    }
  }

  lemma {:induction false} CodeUnitsEqual(a: Text, b: Text)
    ensures CompareCodeUnits(a, b) == 0 <==> a == b
  {
    if a != [] && b != [] && a[0] == b[0] {
      CodeUnitsEqual(a[1..], b[1..]);
      assert a == [a[0]] + a[1..] && b == [b[0]] + b[1..];
    }
  }

  lemma {:induction false} CodeUnitsTransitive(a: Text, b: Text, c: Text)
    requires CompareCodeUnits(a, b) <= 0 && CompareCodeUnits(b, c) <= 0
    ensures CompareCodeUnits(a, c) <= 0
    ensures CompareCodeUnits(a, c) == 0 ==> CompareCodeUnits(a, b) == 0 && CompareCodeUnits(b, c) == 0
  {
    if a != [] && b != [] && c != [] && a[0] == b[0] == c[0] {
      CodeUnitsTransitive(a[1..], b[1..], c[1..]);
    }
  }

  /** Exchanging the arguments exchanges the verdict. */
  lemma CompareFlips(a: Item, b: Item, now: Option<int>)
    ensures Compare(a, b, now) < 0 <==> Compare(b, a, now) > 0
    ensures Compare(a, b, now) == 0 <==> Compare(b, a, now) == 0
  {
    CodeUnitsFlip(a.subjectKey, b.subjectKey);
    CodeUnitsFlip(a.id, b.id);
  }

  /** Only items with the same subject and identifier tie. */
  lemma TiesShareIdentity(a: Item, b: Item, now: Option<int>)
    requires Compare(a, b, now) == 0
    ensures a.subjectKey == b.subjectKey && a.id == b.id
  {
    CodeUnitsEqual(a.subjectKey, b.subjectKey);
    CodeUnitsEqual(a.id, b.id);
  }

  lemma CompareSelf(a: Item, now: Option<int>)
    ensures Compare(a, a, now) == 0
  {
    CodeUnitsEqual(a.subjectKey, a.subjectKey);
    CodeUnitsEqual(a.id, a.id);
  }

  /** No cycles across the eight levels: with `CompareFlips` and `CompareSelf`, a total preorder. */
  lemma CompareTransitive(a: Item, b: Item, c: Item, now: Option<int>)
    requires Compare(a, b, now) <= 0 && Compare(b, c, now) <= 0
    ensures Compare(a, c, now) <= 0
    ensures Compare(a, c, now) == 0 ==> Compare(a, b, now) == 0 && Compare(b, c, now) == 0
  {
    hide CompareCodeUnits;
    if CompareCodeUnits(a.subjectKey, b.subjectKey) <= 0 && CompareCodeUnits(b.subjectKey, c.subjectKey) <= 0 {
      CodeUnitsTransitive(a.subjectKey, b.subjectKey, c.subjectKey);
    }
    if CompareCodeUnits(a.id, b.id) <= 0 && CompareCodeUnits(b.id, c.id) <= 0 {
      CodeUnitsTransitive(a.id, b.id, c.id);
    }
    CodeUnitsEqual(a.subjectKey, b.subjectKey);
    CodeUnitsEqual(b.subjectKey, c.subjectKey);
    CodeUnitsEqual(a.subjectKey, c.subjectKey);
  }

  /** Everything a reader may expect of the order: equal so far, and then the next reason decides. */
  predicate SameUrgency(a: Item, b: Item, now: Option<int>)
  {
    a.priority == b.priority && Overdue(a, now) == Overdue(b, now) && LifecycleRank(a) == LifecycleRank(b)
  }

  predicate Newer(a: Item, b: Item)
  {
    a.observedAt.Some? && b.observedAt.Some? && a.observedAt.value > b.observedAt.value
  }

  /**
   The comparison level by level: higher priority first; then overdue work, which
   comes before other work exactly when its priority is no lower; then reopened,
   then lapsed, then orphaned decisions; then the earlier due time, with undated
   work last; then the least complete evidence; then unknown observation times and
   the newest.
   */
  lemma RankingReasons(a: Item, b: Item, now: Option<int>)
    ensures a.priority == Urgent && b.priority != Urgent ==> Compare(a, b, now) < 0
    ensures a.priority == High && b.priority == Normal ==> Compare(a, b, now) < 0
    ensures Overdue(a, now) && !Overdue(b, now) ==>
      (Compare(a, b, now) < 0 <==> PriorityRank(a.priority) <= PriorityRank(b.priority))
    ensures a.priority == b.priority && Overdue(a, now) == Overdue(b, now) && LifecycleRank(a) < LifecycleRank(b) ==>
      Compare(a, b, now) < 0
    ensures SameUrgency(a, b, now) && a.dueAt.Some? && (b.dueAt.None? || a.dueAt.value < b.dueAt.value) ==>
      Compare(a, b, now) < 0
    ensures SameUrgency(a, b, now) && a.dueAt == b.dueAt ==>
      (a.completeness.Inconclusive? && !b.completeness.Inconclusive? ==> Compare(a, b, now) < 0)
    ensures SameUrgency(a, b, now) && a.dueAt == b.dueAt && a.completeness == b.completeness ==>
      (a.observedAt.None? && b.observedAt.Some? ==> Compare(a, b, now) < 0)
    ensures SameUrgency(a, b, now) && a.dueAt == b.dueAt && a.completeness == b.completeness && Newer(a, b) ==>
      Compare(a, b, now) < 0
  {
  }
}

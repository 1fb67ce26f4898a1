/**
 What one `initialize` call does as a whole: its creating commit, the read that
 verifies every collection, and the rewrites of collections found in an older
 schema version. A call can reject after it has written, whether its verifying
 read or one of its rewrites is what failed; this module says exactly when, and
 what a call that resolves leaves behind.
 */
module LocalDataInitialisation {
  import opened Basics
  import opened LocalDataContent
  import opened CommitPlan
  import opened CommitPlanLaws
  import opened LocalDataProtocol
  import opened CommitLog
  import opened LocalDataInvariant
  import opened LocalDataSafety
  import opened LocalDataGuarantees
  import opened LocalDataRecovery

  // ---------- What is written is what landed ----------

  ghost predicate Lands(steps: seq<Step>, op: OperationId)
  {
    exists i :: 0 <= i < |steps| && steps[i] == Land(op, Applied)
  }

  lemma LogGrowsByLanding(cfg: Config, w: World, step: Step)
    requires Enabled(cfg, w, step)
    ensures var next := Do(cfg, w, step);
      if step.Land? && step.landing.Applied?
      then |next.log| == |w.log| + 1 && next.log[..|w.log|] == w.log && next.log[|w.log|].op == step.op
      else next.log == w.log
  {
    hide PlanOf, IntentOK, CommitAllowed, Matches, ReplacesStray, ProposalInPlace, ExpectationInPlace, ApplyChange,
        SeenExcept,
         AfterSurvey, AfterVerify, UpgradeBegun, Outdated;
  }

  /** An operation has written exactly when one of its transactions landed, whatever it reported. */
  lemma {:induction false} WrittenExactlyWhenLanded(cfg: Config, w: World, steps: seq<Step>, op: OperationId)
    requires Runs(cfg, w, steps)
    ensures NoEntry(After(cfg, w, steps).log, op) <==> NoEntry(w.log, op) && !Lands(steps, op)
    decreases |steps|
  {
    hide Enabled, Do;
    if steps != [] {
      var next := Do(cfg, w, steps[0]);
      LogGrowsByLanding(cfg, w, steps[0]);
      assert NoEntry(next.log, op) <==> NoEntry(w.log, op) && steps[0] != Land(op, Applied) by {
        assert forall i :: 0 <= i < |w.log| ==> next.log[i] == next.log[..|w.log|][i];
      }
      WrittenExactlyWhenLanded(cfg, next, steps[1..], op);
      assert Lands(steps, op) <==> steps[0] == Land(op, Applied) || Lands(steps[1..], op) by {
        if Lands(steps[1..], op) {
          var i :| 0 <= i < |steps[1..]| && steps[1..][i] == Land(op, Applied);
          assert steps[i + 1] == Land(op, Applied);
        }
        assert forall i :: 1 <= i < |steps| ==> steps[i] == steps[1..][i - 1];
      }
    }
  }

  // ---------- The operations of one call ----------

  /** The call an operation belongs to: itself, unless it is a rewrite. */
  function CallOf(w: World, op: OperationId): OperationId
    requires op in w.operations
  {
    if w.operations[op].intent.Upgrade? then w.operations[op].intent.call else op
  }

  /** A rewrite belongs to a call that resolved its verifying read and found the collection outdated. */
  ghost predicate UpgradeOK(cfg: Config, w: World, op: OperationId)
    requires op in w.operations && w.operations[op].intent.Upgrade?
  {
    var call := w.operations[op].intent.call;
    && call in w.operations && w.operations[call].phase.Finished? && w.operations[call].phase.outcome.Ready?
    && w.operations[op].provider == w.operations[call].provider
    && exists c :: w.operations[op].intent.collections == {c} && FoundOutdated(cfg, w, call, c)
  }

  ghost predicate FoundOutdated(cfg: Config, w: World, call: OperationId, c: Text)
    requires call in w.operations && w.operations[call].phase.Finished? && w.operations[call].phase.outcome.Ready?
  {
    c in w.operations[call].phase.outcome.seen && Outdated(cfg, c, w.operations[call].phase.outcome.seen[c])
  }

  ghost predicate UpgradesOK(cfg: Config, w: World)
  {
    && (forall op :: op in w.operations && w.operations[op].intent.Upgrade? ==> UpgradeOK(cfg, w, op))
    && (forall x, y, c :: Upgrades(w, x, c) && Upgrades(w, y, c) && CallOf(w, x) == CallOf(w, y) ==> x == y)
  }

  ghost predicate Upgrades(w: World, op: OperationId, c: Text)
  {
    op in w.operations && w.operations[op].intent.Upgrade? && c in w.operations[op].intent.collections
  }

  /** A step leaves every intent, and every operation that has finished, as it is. */
  lemma StepKeepsIntents(cfg: Config, w: World, step: Step, op: OperationId)
    requires Enabled(cfg, w, step) && op in w.operations
    ensures var next := Do(cfg, w, step);
      && op in next.operations && next.operations[op].intent == w.operations[op].intent
      && next.operations[op].provider == w.operations[op].provider
      && (w.operations[op].phase.Finished? ==> next.operations[op] == w.operations[op])
  {
    hide PlanOf, IntentOK, CommitAllowed, Matches, ReplacesStray, ProposalInPlace, ExpectationInPlace, ApplyChange,
        SeenExcept,
         AfterSurvey, AfterVerify, UpgradeBegun, Outdated;
  }

  /** So does a run. */
  lemma {:induction false} RunKeepsIntents(cfg: Config, w: World, steps: seq<Step>, op: OperationId)
    requires Runs(cfg, w, steps) && op in w.operations
    ensures var next := After(cfg, w, steps);
      && op in next.operations && next.operations[op].intent == w.operations[op].intent
      && next.operations[op].provider == w.operations[op].provider
      && (w.operations[op].phase.Finished? ==> next.operations[op] == w.operations[op])
    decreases |steps|
  {
    hide Enabled, Do;
    if steps != [] {
      StepKeepsIntents(cfg, w, steps[0], op);
      RunKeepsIntents(cfg, Do(cfg, w, steps[0]), steps[1..], op);
    }
  }

  /** What a longer run keeps of a shorter one. */
  lemma LongerRunKeepsIntents(cfg: Config, start: Store, shorter: seq<Step>, longer: seq<Step>, op: OperationId)
    requires RunFrom(cfg, start, shorter) && RunFrom(cfg, start, longer) && shorter <= longer
    requires op in Reached(cfg, start, shorter).operations
    ensures var w, next := Reached(cfg, start, shorter), Reached(cfg, start, longer);
      && op in next.operations && next.operations[op].intent == w.operations[op].intent
      && next.operations[op].provider == w.operations[op].provider
      && (w.operations[op].phase.Finished? ==> next.operations[op] == w.operations[op])
  {
    hide Enabled, Do, StoreOK, ValidConfig;
    RunSplits(cfg, Initial(start), longer, |shorter|);
    assert longer[..|shorter|] == shorter;
    RunKeepsIntents(cfg, Reached(cfg, start, shorter), longer[|shorter|..], op);
  }

  lemma {:induction false} RunSplits(cfg: Config, w: World, steps: seq<Step>, n: nat)
    requires Runs(cfg, w, steps) && n <= |steps|
    ensures Runs(cfg, w, steps[..n]) && Runs(cfg, After(cfg, w, steps[..n]), steps[n..])
    ensures After(cfg, After(cfg, w, steps[..n]), steps[n..]) == After(cfg, w, steps)
    decreases |steps|
  {
    hide Enabled, Do;
    if n == 0 {
      assert steps[..0] == [] && steps[0..] == steps;
    } else {
      RunSplits(cfg, Do(cfg, w, steps[0]), steps[1..], n - 1);
      assert steps[..n][0] == steps[0] && steps[..n][1..] == steps[1..][..n - 1] && steps[n..] == steps[1..][n - 1..];
    }
  }

  /** A step begins a rewrite only as `BeginUpgrade` allows. */
  lemma StepBeginsUpgrade(cfg: Config, w: World, step: Step, op: OperationId)
    requires Enabled(cfg, w, step) && op !in w.operations && op in Do(cfg, w, step).operations
    requires Do(cfg, w, step).operations[op].intent.Upgrade?
    ensures step.BeginUpgrade? && step.op == op && step.call in w.operations
    ensures var begun := Do(cfg, w, step).operations[op];
      begun.intent == Upgrade({step.collection}, step.call) && begun.provider == w.operations[step.call].provider
  {
    hide PlanOf, IntentOK, CommitAllowed, Matches, ReplacesStray, ProposalInPlace, ExpectationInPlace, ApplyChange,
        SeenExcept,
         AfterSurvey, AfterVerify, UpgradeBegun, Outdated;
  }

  lemma StepKeepsUpgradeOK(cfg: Config, w: World, step: Step, op: OperationId)
    requires Enabled(cfg, w, step) && op in Do(cfg, w, step).operations
        && Do(cfg, w, step).operations[op].intent.Upgrade?
    requires UpgradesOK(cfg, w)
    ensures UpgradeOK(cfg, Do(cfg, w, step), op)
  {
    hide Do, Outdated;
    var next := Do(cfg, w, step);
    if op in w.operations {
      StepKeepsIntents(cfg, w, step, op);
      assert UpgradeOK(cfg, w, op);
      StepKeepsIntents(cfg, w, step, w.operations[op].intent.call);
      var c :| w.operations[op].intent.collections == {c} && FoundOutdated(cfg, w, w.operations[op].intent.call, c);
      assert FoundOutdated(cfg, next, w.operations[op].intent.call, c);
    } else {
      StepBeginsUpgrade(cfg, w, step, op);
      StepKeepsIntents(cfg, w, step, step.call);
      assert FoundOutdated(cfg, next, step.call, step.collection);
    }
  }

  lemma StepKeepsUpgradesApart(cfg: Config, w: World, step: Step, x: OperationId, y: OperationId, c: Text)
    requires Enabled(cfg, w, step) && UpgradesOK(cfg, w)
    requires Upgrades(Do(cfg, w, step), x, c) && Upgrades(Do(cfg, w, step), y, c)
    requires CallOf(Do(cfg, w, step), x) == CallOf(Do(cfg, w, step), y)
    ensures x == y
  {
    hide Do, UpgradeOK, Outdated;
    if x in w.operations && y in w.operations {
      StepKeepsIntents(cfg, w, step, x);
      StepKeepsIntents(cfg, w, step, y);
      assert Upgrades(w, x, c) && Upgrades(w, y, c) && CallOf(w, x) == CallOf(w, y);
    } else if x in w.operations {
      NotBegunTwice(cfg, w, step, x, y, c);
    } else if y in w.operations {
      NotBegunTwice(cfg, w, step, y, x, c);
    } else {
      StepBeginsUpgrade(cfg, w, step, x);
      StepBeginsUpgrade(cfg, w, step, y);
    }
  }

  /** A rewrite under way keeps its call from beginning another of the same collection. */
  lemma NotBegunTwice(cfg: Config, w: World, step: Step, x: OperationId, y: OperationId, c: Text)
    requires Enabled(cfg, w, step) && x in w.operations && y !in w.operations
    requires Upgrades(Do(cfg, w, step), x, c) && Upgrades(Do(cfg, w, step), y, c)
    ensures CallOf(Do(cfg, w, step), x) != CallOf(Do(cfg, w, step), y)
  {
    hide Do, Outdated;
    StepKeepsIntents(cfg, w, step, x);
    StepBeginsUpgrade(cfg, w, step, y);
  }

  lemma {:induction false} RunKeepsUpgradesOK(cfg: Config, w: World, steps: seq<Step>)
    requires Runs(cfg, w, steps) && UpgradesOK(cfg, w)
    ensures UpgradesOK(cfg, After(cfg, w, steps))
    decreases |steps|
  {
    hide Enabled, Do, UpgradeOK;
    if steps != [] {
      var next := Do(cfg, w, steps[0]);
      forall op | op in next.operations && next.operations[op].intent.Upgrade? ensures UpgradeOK(cfg, next, op) {
        StepKeepsUpgradeOK(cfg, w, steps[0], op);
      }
      forall x, y, c | Upgrades(next, x, c) && Upgrades(next, y, c) && CallOf(next, x) == CallOf(next, y)
          ensures x == y {
        StepKeepsUpgradesApart(cfg, w, steps[0], x, y, c);
      }
      RunKeepsUpgradesOK(cfg, next, steps[1..]);
    }
  }

  lemma CallsOK(cfg: Config, start: Store, steps: seq<Step>)
    requires RunFrom(cfg, start, steps)
    ensures WorldOK(cfg, start, Reached(cfg, start, steps)) && UpgradesOK(cfg, Reached(cfg, start, steps))
  {
    hide WorldOK, UpgradesOK;
    ReachedOK(cfg, start, steps);
    assert UpgradesOK(cfg, Initial(start)) by { NoUpgradesYet(cfg, start); }
    RunKeepsUpgradesOK(cfg, Initial(start), steps);
  }

  lemma NoUpgradesYet(cfg: Config, start: Store)
    ensures UpgradesOK(cfg, Initial(start))
  {
  }

  // ---------- Each collection is written at most once ----------

  /** Entry `i` of the history is a transaction of this call that wrote the collection. */
  ghost predicate CallWrote(w: World, call: OperationId, i: int, c: Text)
  {
    && 0 <= i < |w.log| && w.log[i].op in w.operations
    && CallOf(w, w.log[i].op) == call && c in w.log[i].change.writes
  }

  /** Creating a collection leaves it current, so the verifying read of the same call cannot find it outdated. */
  lemma CreatedIsNotUpgraded(cfg: Config, start: Store, w: World, call: OperationId, i: nat, u: OperationId, c: Text)
    requires WorldOK(cfg, start, w) && UpgradesOK(cfg, w)
    requires CallWrote(w, call, i, c) && w.log[i].op == call
    ensures Upgrades(w, u, c) ==> CallOf(w, u) != call
  {
    hide LogOK, StoreOK, ValidConfig, PlanOf, IntentOK, StoreAfter, WorldOK, Current;
    LogOf(cfg, start, w);
    if Upgrades(w, u, c) && CallOf(w, u) == call {
      assert UpgradeOK(cfg, w, u);
      var d :| w.operations[u].intent.collections == {d} && FoundOutdated(cfg, w, call, d);
      Known(cfg, start, w, call);
      var outcome := w.operations[call].phase.outcome;
      CurrentAfterWrite(cfg, start, w.log, i, outcome.at, c);
      NotOutdated(cfg, StoreAfter(start, w.log, outcome.at), c);
    }
  }

  lemma CurrentAfterWrite(cfg: Config, start: Store, log: seq<Entry>, i: nat, j: nat, c: Text)
    requires LogOK(cfg, start, log) && i < j <= |log| && c in log[i].change.writes
    ensures Current(cfg, StoreAfter(start, log, j), c)
  {
    hide EntryOK, ApplyChange, Current;
    EntryAt(cfg, start, log, i);
    NextStore(start, log, i);
    EntryWritesCurrent(cfg, StoreAfter(start, log, i), log[i], c);
    CurrentStays(cfg, start, log, i + 1, j, c);
  }

  lemma NotOutdated(cfg: Config, store: Store, c: Text)
    requires Current(cfg, store, c)
    ensures !Outdated(cfg, c, SeenAt(store, c))
  {
  }

  /** A transaction writes collections its operation names. */
  lemma WritesAreNamed(cfg: Config, start: Store, w: World, i: nat, c: Text)
    requires WorldOK(cfg, start, w) && i < |w.log| && c in w.log[i].change.writes
    ensures w.log[i].op in w.operations && c in w.operations[w.log[i].op].intent.collections
  {
    hide LogOK, StoreOK, ValidConfig, PlanOf, ApplyChange, OperationOK;
    EntryAt(cfg, start, w.log, i);
    EntryRaisesRevision(cfg, StoreAfter(start, w.log, i), w.log[i], c);
  }

  /**
   Over every run one `initialize` call writes each collection at most once: it
   creates it, or upgrades it, or neither.
   */
  lemma InitialisationWritesEachOnce(cfg: Config, start: Store, steps: seq<Step>, call: OperationId, c: Text, i: nat,
                                     j: nat)
    requires RunFrom(cfg, start, steps)
    requires CallWrote(Reached(cfg, start, steps), call, i, c) && CallWrote(Reached(cfg, start, steps), call, j, c)
    ensures i == j
  {
    hide ValidConfig, StoreOK, Reached, WorldOK, UpgradesOK;
    var w := Reached(cfg, start, steps);
    CallsOK(cfg, start, steps);
    WritesAreNamed(cfg, start, w, i, c);
    WritesAreNamed(cfg, start, w, j, c);
    var x, y := w.log[i].op, w.log[j].op;
    if x == y {
      WritesOnce(cfg, start, w, x, i, j);
    } else if x == call && w.operations[y].intent.Upgrade? {
      CreatedIsNotUpgraded(cfg, start, w, call, i, y, c);
    } else if y == call && w.operations[x].intent.Upgrade? {
      CreatedIsNotUpgraded(cfg, start, w, call, j, x, c);
    } else {
      assert UpgradesOK(cfg, w);
      UpgradesAreApart(cfg, w, x, y, c);
    }
  }

  lemma UpgradesAreApart(cfg: Config, w: World, x: OperationId, y: OperationId, c: Text)
    requires UpgradesOK(cfg, w) && Upgrades(w, x, c) && Upgrades(w, y, c) && CallOf(w, x) == CallOf(w, y)
    ensures x == y
  {
  }

  lemma WritesOnce(cfg: Config, start: Store, w: World, op: OperationId, i: nat, j: nat)
    requires WorldOK(cfg, start, w) && op in w.operations
    requires i < |w.log| && j < |w.log| && w.log[i].op == op && w.log[j].op == op
    ensures i == j
  {
    hide LogOK, StoreOK, ValidConfig, PlanOf, IntentOK, StoreAfter, WorldOK, CapturedOK;
    Known(cfg, start, w, op);
    assert AtMostOneEntry(w.log, op);
  }

  // ---------- A call that resolves ----------

  /** Initialisation resolves when its verifying read succeeded and every rewrite was saved or lost to another tab. */
  ghost predicate Resolved(cfg: Config, w: World, call: OperationId)
  {
    && call in w.operations && w.operations[call].phase.Finished? && w.operations[call].phase.outcome.Ready?
    && forall c :: FoundOutdated(cfg, w, call, c) ==>
      exists op :: Upgrades(w, op, c) && CallOf(w, op) == call && RewriteDone(w, op)
  }

  ghost predicate RewriteDone(w: World, op: OperationId)
    requires op in w.operations
  {
    && w.operations[op].phase.Finished?
    && (w.operations[op].phase.outcome.Saved? || w.operations[op].phase.outcome == Failed(Conflict))
  }

  lemma {:induction false} SomeRival(log: seq<Entry>, lo: nat, hi: nat, collections: set<Text>) returns (k: nat)
    requires hi <= |log| && Rivals(log, lo, hi, collections) > 0
    ensures lo <= k < hi && Touches(log[k], collections)
    decreases hi
  {
    if Touches(log[hi - 1], collections) {
      k := hi - 1;
    } else {
      k := SomeRival(log, lo, hi - 1, collections);
    }
  }

  /** A finished rewrite leaves its collection current, even when another tab came first. */
  lemma RewriteLeavesCurrent(cfg: Config, start: Store, w: World, op: OperationId, c: Text)
    requires WorldOK(cfg, start, w) && UpgradesOK(cfg, w) && Upgrades(w, op, c) && RewriteDone(w, op)
    ensures Current(cfg, w.store, c)
  {
    hide LogOK, StoreOK, ValidConfig, PlanOf, IntentOK, StoreAfter, WorldOK, Current, Rivals, Outdated;
    LogOf(cfg, start, w);
    Known(cfg, start, w, op);
    assert UpgradeOK(cfg, w, op);
    if w.operations[op].phase.outcome == Failed(Conflict) {
      var k := SomeRival(w.log, w.operations[op].started, |w.log|, w.operations[op].intent.collections);
      CurrentAfterWrite(cfg, start, w.log, k, |w.log|, c);
    }
  }

  lemma ReadAsCurrent(cfg: Config, store: Store, c: Text)
    requires StoreOK(cfg, store) && c in store.held && !Outdated(cfg, c, SeenAt(store, c))
    ensures Current(cfg, store, c)
  {
  }

  /** A call that resolved leaves every declared collection present and in its current schema version. */
  lemma ResolvedMeansCurrent(cfg: Config, start: Store, steps: seq<Step>, call: OperationId)
    requires RunFrom(cfg, start, steps) && Resolved(cfg, Reached(cfg, start, steps), call)
    ensures var w := Reached(cfg, start, steps); AllCurrent(cfg, w.store, w.operations[call].intent.collections)
  {
    hide ValidConfig, LogOK, StoreOK, Reached, WorldOK, UpgradesOK, Current, Outdated, StoreAfter, RewriteDone,
        NoEntry, OneEntry;
    var w := Reached(cfg, start, steps);
    CallsOK(cfg, start, steps);
    LogOf(cfg, start, w);
    History(cfg, start, w);
    Known(cfg, start, w, call);
    var at := w.operations[call].phase.outcome.at;
    HistoryKeepsStoreOK(cfg, start, w.log, at);
    forall c | c in w.operations[call].intent.collections ensures Current(cfg, w.store, c) {
      if FoundOutdated(cfg, w, call, c) {
        var op :| Upgrades(w, op, c) && CallOf(w, op) == call && RewriteDone(w, op);
        RewriteLeavesCurrent(cfg, start, w, op, c);
      } else {
        ReadAsCurrent(cfg, StoreAfter(start, w.log, at), c);
        CurrentStays(cfg, start, w.log, at, |w.log|, c);
      }
    }
  }

  // ---------- A call that fails ----------

  /** None of the operations of a call has written. */
  ghost predicate WroteNothing(w: World, call: OperationId)
  {
    forall i :: 0 <= i < |w.log| && w.log[i].op in w.operations ==> CallOf(w, w.log[i].op) != call
  }

  /** Whatever a call reports, it wrote nothing exactly when no transaction of it landed. */
  lemma CallWroteNothingExactlyWhenNothingLanded(cfg: Config, start: Store, steps: seq<Step>, call: OperationId)
    requires RunFrom(cfg, start, steps)
    ensures var w := Reached(cfg, start, steps);
      WroteNothing(w, call) <==> forall op :: op in w.operations && CallOf(w, op) == call ==> !Lands(steps, op)
  {
    hide ValidConfig, StoreOK, Reached, WorldOK, Lands;
    var w := Reached(cfg, start, steps);
    ReachedIsAfter(cfg, start, steps);
    forall op ensures NoEntry(w.log, op) <==> !Lands(steps, op) {
      WrittenExactlyWhenLanded(cfg, Initial(start), steps, op);
    }
    if !WroteNothing(w, call) {
      var i :| 0 <= i < |w.log| && w.log[i].op in w.operations && CallOf(w, w.log[i].op) == call;
      assert !NoEntry(w.log, w.log[i].op);
    }
  }

  lemma ReachedIsAfter(cfg: Config, start: Store, steps: seq<Step>)
    requires RunFrom(cfg, start, steps)
    ensures Runs(cfg, Initial(start), steps) && Reached(cfg, start, steps) == After(cfg, Initial(start), steps)
  {
  }

  /** The operation was told that its commit succeeded: an update or rewrite was saved, or an initialisation created. */
  predicate ReportsCommit(phase: Phase)
  {
    ReportedCreated(phase) || (phase.Finished? && phase.outcome.Saved?)
  }

  predicate EndsUnknown(phase: Phase)
  {
    phase.Finished? && phase.outcome == Failed(CommitUnknown)
  }

  /** A finished operation that reports no commit, and does not leave it open, wrote nothing. */
  lemma UnreportedWroteNothing(cfg: Config, start: Store, steps: seq<Step>, op: OperationId)
    requires RunFrom(cfg, start, steps) && op in Reached(cfg, start, steps).operations
    requires var phase := Reached(cfg, start, steps).operations[op].phase;
      phase.Finished? && !EndsUnknown(phase) && !ReportsCommit(phase)
    ensures NoEntry(Reached(cfg, start, steps).log, op)
  {
    hide ValidConfig, LogOK, StoreOK, NoEntry, OneEntry, IntentOK, PlanOf, Reached;
    ReachedOK(cfg, start, steps);
    Known(cfg, start, Reached(cfg, start, steps), op);
  }

  /** With distinct times, one that reports a commit did write. */
  lemma ReportedIsWritten(cfg: Config, start: Store, steps: seq<Step>, op: OperationId)
    requires RunFrom(cfg, start, steps) && DistinctTimes(cfg, Initial(start), steps)
    requires op in Reached(cfg, start, steps).operations
        && ReportsCommit(Reached(cfg, start, steps).operations[op].phase)
    ensures !NoEntry(Reached(cfg, start, steps).log, op)
  {
    hide StoreOK, ValidConfig, Runs, WorldOK, OneEntry;
    InitialOK(cfg, start);
    RunKeepsRecoveryOK(cfg, start, Initial(start), steps);
    var w := Reached(cfg, start, steps);
    assert SavedOnce(w, op);
    var i :| OneEntry(w.log, op, i);
    EntryIsThere(w.log, op, i);
  }

  /** Every operation of the call has finished, none of them with an unknown outcome. */
  ghost predicate Ended(w: World, call: OperationId)
  {
    && call in w.operations
    && forall op :: op in w.operations && CallOf(w, op) == call ==>
      w.operations[op].phase.Finished? && !EndsUnknown(w.operations[op].phase)
  }

  /** The call was told of a commit of its own: its creation, or one of its rewrites. */
  ghost predicate ToldOfCommit(w: World, call: OperationId)
  {
    || (call in w.operations && ReportedCreated(w.operations[call].phase))
    || (exists op :: op in w.operations && UpgradeOf(w.operations[op].intent, call)
          && w.operations[op].phase.Finished? && w.operations[op].phase.outcome.Saved?)
  }

  /** Only its creating operation and its rewrites belong to an initialisation. */
  lemma ToldByOperation(cfg: Config, start: Store, steps: seq<Step>, call: OperationId, op: OperationId)
    requires RunFrom(cfg, start, steps) && call in Reached(cfg, start, steps).operations
    requires Reached(cfg, start, steps).operations[call].intent.Create?
    requires var w := Reached(cfg, start, steps); op in w.operations && CallOf(w, op) == call
    ensures var w := Reached(cfg, start, steps); ReportsCommit(w.operations[op].phase) ==> ToldOfCommit(w, call)
  {
    hide ValidConfig, LogOK, StoreOK, NoEntry, OneEntry, IntentOK, PlanOf, Reached;
    ReachedOK(cfg, start, steps);
    Known(cfg, start, Reached(cfg, start, steps), op);
  }

  /** Whatever the commit times, an initialisation that ended without being told of a commit wrote nothing. */
  lemma UntoldCallWroteNothing(cfg: Config, start: Store, steps: seq<Step>, call: OperationId)
    requires RunFrom(cfg, start, steps) && Ended(Reached(cfg, start, steps), call)
    requires Reached(cfg, start, steps).operations[call].intent.Create?
        && !ToldOfCommit(Reached(cfg, start, steps), call)
    ensures WroteNothing(Reached(cfg, start, steps), call)
  {
    hide RunFrom, Reached, ToldOfCommit, ReportsCommit, EndsUnknown;
    var w := Reached(cfg, start, steps);
    forall i | 0 <= i < |w.log| && w.log[i].op in w.operations ensures CallOf(w, w.log[i].op) != call {
      var op := w.log[i].op;
      if CallOf(w, op) == call {
        ToldByOperation(cfg, start, steps, call, op);
        UnreportedWroteNothing(cfg, start, steps, op);
      }
    }
  }

  /**
   When no two transactions carry the same time, an initialisation that ended with
   a known outcome, rejected or resolved, wrote nothing exactly when its creation
   was not reported and none of its rewrites was saved.
   */
  lemma EndedCallWroteNothing(cfg: Config, start: Store, steps: seq<Step>, call: OperationId)
    requires RunFrom(cfg, start, steps) && DistinctTimes(cfg, Initial(start), steps)
    requires Ended(Reached(cfg, start, steps), call) && Reached(cfg, start, steps).operations[call].intent.Create?
    ensures var w := Reached(cfg, start, steps); WroteNothing(w, call) <==> !ToldOfCommit(w, call)
  {
    hide RunFrom, Reached, DistinctTimes, EndsUnknown, ReportedCreated;
    var w := Reached(cfg, start, steps);
    if !ToldOfCommit(w, call) {
      UntoldCallWroteNothing(cfg, start, steps, call);
    } else {
      var op :| op in w.operations && CallOf(w, op) == call && ReportsCommit(w.operations[op].phase);
      ReportedIsWritten(cfg, start, steps, op);
      var i :| 0 <= i < |w.log| && w.log[i].op == op;
    }
  }

  lemma EntryIsThere(log: seq<Entry>, op: OperationId, i: int)
    requires OneEntry(log, op, i)
    ensures !NoEntry(log, op)
  {
  }

  // ---------- Such failures happen ----------

  function Alone(store: Store, log: seq<Entry>, intent: Intent, phase: Phase): World
  {
    World(store, log, map[], map[0 := Operation(0, intent, 0, phase)])
  }

  /** What creation sees: the collections that exist, the others absent. */
  function FoundFor(start: Store, intent: Intent): map<Text, Seen>
  {
    SeenExcept(start, intent.collections, intent.collections - start.held.Keys)
  }

  /** Something the intent names is missing, all of it may be created, and creating it is possible. */
  ghost predicate CanCreate(cfg: Config, start: Store, intent: Intent, stamp: Stamp)
  {
    var missing := intent.collections - start.held.Keys;
    && IntentOK(cfg, intent) && intent.Create? && missing != {} && missing !! start.stray
    && (forall c :: c in missing ==> MayCreate(intent, c))
    && PlanOf(cfg, intent, FoundFor(start, intent), stamp).Proceed?
  }

  function CreatingFlight(cfg: Config, start: Store, intent: Intent, stamp: Stamp): Flight
    requires IntentOK(cfg, intent) && PlanOf(cfg, intent, FoundFor(start, intent), stamp).Proceed?
  {
    var plan := PlanOf(cfg, intent, FoundFor(start, intent), stamp);
    Flight(1, 0, FoundFor(start, intent), stamp, plan.change, plan.result)
  }

  lemma CreationTakesOff(cfg: Config, start: Store, intent: Intent, stamp: Stamp) returns (steps: seq<Step>)
    requires CanCreate(cfg, start, intent, stamp)
    ensures var flight := CreatingFlight(cfg, start, intent, stamp);
      Leads(cfg, Initial(start), steps, Alone(start, [], intent, InFlight(flight, None)))
  {
    hide PlanOf, IntentOK, Leads;
    var seen, missing := FoundFor(start, intent), intent.collections - start.held.Keys;
    var w0 := Alone(start, [], intent, Idle(1));
    var w1 := Alone(start, [], intent, Surveyed(missing));
    var w2 := Alone(start, [], intent, Captured(1, 0, seen));
    var w3 := Alone(start, [], intent, InFlight(CreatingFlight(cfg, start, intent, stamp), None));
    Nothing(cfg, Initial(start));
    LeadsOn(cfg, Initial(start), [], Initial(start), Begin(0, 0, intent), w0);
    steps := [] + [Begin(0, 0, intent)];
    LeadsOn(cfg, Initial(start), steps, w0, Survey(0), w1);
    steps := steps + [Survey(0)];
    LeadsOn(cfg, Initial(start), steps, w1, Capture(0), w2);
    steps := steps + [Capture(0)];
    LeadsOn(cfg, Initial(start), steps, w2, Propose(0, stamp), w3);
    steps := steps + [Propose(0, stamp)];
  }

  lemma FreshCreationIsAllowed(cfg: Config, start: Store, intent: Intent, stamp: Stamp)
    requires CanCreate(cfg, start, intent, stamp)
    ensures CommitAllowed(start, CreatingFlight(cfg, start, intent, stamp).change)
  {
    hide PlanOf, WriteFollows, IntentOK;
    PlanShape(cfg, intent, FoundFor(start, intent), stamp);
  }

  /** Creation adds what was missing and leaves the rest. */
  lemma CreationOnlyAdds(cfg: Config, start: Store, intent: Intent, stamp: Stamp)
    requires CanCreate(cfg, start, intent, stamp)
    ensures var next := ApplyChange(start, CreatingFlight(cfg, start, intent, stamp).change);
      && AllHeld(next, intent.collections)
      && forall c :: c in start.held ==> SeenAt(next, c) == SeenAt(start, c)
  {
    hide PlanOf, WriteFollows, IntentOK, CommitAllowed;
    PlanShape(cfg, intent, FoundFor(start, intent), stamp);
  }

  /** The creation takes effect and is acknowledged. */
  lemma CreationIsReported(cfg: Config, start: Store, intent: Intent, stamp: Stamp) returns (steps: seq<Step>)
    requires CanCreate(cfg, start, intent, stamp)
    ensures var flight := CreatingFlight(cfg, start, intent, stamp);
      Leads(cfg, Initial(start), steps,
            Alone(ApplyChange(start, flight.change), [Entry(0, intent, stamp, flight.change, flight.result)], intent,
                  Verifying(true)))
  {
    hide PlanOf, IntentOK, Leads, ApplyChange, CommitAllowed;
    var flight := CreatingFlight(cfg, start, intent, stamp);
    var next, log := ApplyChange(start, flight.change), [Entry(0, intent, stamp, flight.change, flight.result)];
    var w3 := Alone(start, [], intent, InFlight(flight, None));
    var w4 := Alone(next, log, intent, InFlight(flight, Some(Applied)));
    var w5 := Alone(next, log, intent, Verifying(true));
    steps := CreationTakesOff(cfg, start, intent, stamp);
    FreshCreationIsAllowed(cfg, start, intent, stamp);
    LeadsOn(cfg, Initial(start), steps, w3, Land(0, Applied), w4);
    steps := steps + [Land(0, Applied)];
    LeadsOn(cfg, Initial(start), steps, w4, Acknowledge(0), w5);
    steps := steps + [Acknowledge(0)];
  }

  /**
   Whenever creation is possible there is a run in which it takes effect and is
   acknowledged, and the call nevertheless rejects with a timeout, because the
   read that verifies the collections timed out.
   */
  lemma FailsAfterCreating(cfg: Config, start: Store, intent: Intent, stamp: Stamp) returns (steps: seq<Step>, w: World)
    requires CanCreate(cfg, start, intent, stamp)
    ensures Leads(cfg, Initial(start), steps, w)
    ensures 0 in w.operations && w.operations[0].phase == Finished(Unverified(TimedOut, true))
    ensures OneEntry(w.log, 0, 0) && w.store == ApplyChange(start, CreatingFlight(cfg, start, intent, stamp).change)
  {
    hide PlanOf, IntentOK, Leads, ApplyChange;
    var flight := CreatingFlight(cfg, start, intent, stamp);
    var next, log := ApplyChange(start, flight.change), [Entry(0, intent, stamp, flight.change, flight.result)];
    w := Alone(next, log, intent, Finished(Unverified(TimedOut, true)));
    steps := CreationIsReported(cfg, start, intent, stamp);
    LeadsOn(cfg, Initial(start), steps, Alone(next, log, intent, Verifying(true)), ReadFails(0, TimedOut), w);
    steps := steps + [ReadFails(0, TimedOut)];
  }

  // ---------- Failures in a rewrite ----------

  /** Beside what is to be created, one collection is outdated and can be written again. */
  ghost predicate CanRewrite(cfg: Config, start: Store, intent: Intent, c: Text, later: Stamp)
  {
    && c in intent.collections && c in start.held && Outdated(cfg, c, SeenAt(start, c))
    && IntentOK(cfg, Upgrade({c}, 0))
    && PlanOf(cfg, Upgrade({c}, 0), map[c := SeenAt(start, c)], later).Proceed?
  }

  /** The initialisation past its verifying read, and its rewrite of one collection. */
  function Beside(store: Store, log: seq<Entry>, intent: Intent, c: Text, phase: Phase): World
  {
    World(store, log, map[],
          map[0 := Operation(0, intent, 0, Finished(Ready(1, SeenIn(store, intent.collections), true))),
              1 := Operation(0, Upgrade({c}, 0), 1, phase)])
  }

  /** After its creation was reported the call turns to the outdated collection. */
  lemma RewriteBegins(cfg: Config, start: Store, intent: Intent, stamp: Stamp, c: Text, later: Stamp)
    returns (steps: seq<Step>)
    requires CanCreate(cfg, start, intent, stamp) && CanRewrite(cfg, start, intent, c, later)
    ensures var flight := CreatingFlight(cfg, start, intent, stamp);
      Leads(cfg, Initial(start), steps,
            Beside(ApplyChange(start, flight.change), [Entry(0, intent, stamp, flight.change, flight.result)], intent,
                   c,
                   Captured(1, 1, map[c := SeenAt(start, c)])))
  {
    hide PlanOf, IntentOK, Leads, ApplyChange, Outdated;
    var flight := CreatingFlight(cfg, start, intent, stamp);
    var next, log := ApplyChange(start, flight.change), [Entry(0, intent, stamp, flight.change, flight.result)];
    var w5 := Alone(next, log, intent, Verifying(true));
    var w6 := Alone(next, log, intent, Finished(Ready(1, SeenIn(next, intent.collections), true)));
    var w7 := Beside(next, log, intent, c, Captured(1, 1, map[c := SeenAt(start, c)]));
    steps := CreationIsReported(cfg, start, intent, stamp);
    CreationOnlyAdds(cfg, start, intent, stamp);
    LeadsOn(cfg, Initial(start), steps, w5, Verify(0), w6);
    steps := steps + [Verify(0)];
    LeadsOn(cfg, Initial(start), steps, w6, BeginUpgrade(1, 0, c), w7);
    steps := steps + [BeginUpgrade(1, 0, c)];
  }

  /**
   And there is one in which every read succeeds and the write of a rewrite fails:
   the call rejects with a known code, none of its operations ends unknown, and
   its creation stands.
   */
  lemma FailsInRewriteAfterCreating(cfg: Config, start: Store, intent: Intent, stamp: Stamp, c: Text, later: Stamp)
    returns (steps: seq<Step>, w: World)
    requires CanCreate(cfg, start, intent, stamp) && CanRewrite(cfg, start, intent, c, later)
    ensures Leads(cfg, Initial(start), steps, w)
    ensures Ended(w, 0) && 1 in w.operations && CallOf(w, 1) == 0
    ensures w.operations[1].phase == Finished(Failed(WriteFailed))
    ensures ToldOfCommit(w, 0) && !WroteNothing(w, 0)
    ensures w.store == ApplyChange(start, CreatingFlight(cfg, start, intent, stamp).change)
  {
    hide PlanOf, IntentOK, Leads, ApplyChange, Outdated, Ended, ToldOfCommit, WroteNothing;
    var first := CreatingFlight(cfg, start, intent, stamp);
    var next, log := ApplyChange(start, first.change), [Entry(0, intent, stamp, first.change, first.result)];
    var seen, rewrite := map[c := SeenAt(start, c)], Upgrade({c}, 0);
    var plan := PlanOf(cfg, rewrite, seen, later);
    var flight := Flight(1, 1, seen, later, plan.change, plan.result);
    var w7 := Beside(next, log, intent, c, Captured(1, 1, seen));
    var w8 := Beside(next, log, intent, c, InFlight(flight, None));
    var w9 := Beside(next, log, intent, c, InFlight(flight, Some(NotApplied(WriteFailed))));
    w := Beside(next, log, intent, c, Finished(Failed(WriteFailed)));
    steps := RewriteBegins(cfg, start, intent, stamp, c, later);
    LeadsOn(cfg, Initial(start), steps, w7, Propose(1, later), w8);
    steps := steps + [Propose(1, later)];
    LeadsOn(cfg, Initial(start), steps, w8, Land(1, NotApplied(WriteFailed)), w9);
    steps := steps + [Land(1, NotApplied(WriteFailed))];
    LeadsOn(cfg, Initial(start), steps, w9, Acknowledge(1), w);
    steps := steps + [Acknowledge(1)];
    BesideEnds(next, log, intent, c);
  }

  lemma BesideEnds(store: Store, log: seq<Entry>, intent: Intent, c: Text)
    requires log != [] && log[0].op == 0 && intent.Create?
    ensures var w := Beside(store, log, intent, c, Finished(Failed(WriteFailed)));
      Ended(w, 0) && CallOf(w, 1) == 0 && ToldOfCommit(w, 0) && !WroteNothing(w, 0)
  {
    assert log[0].op in {0, 1};
  }
}

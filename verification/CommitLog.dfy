/**
 The history of committed transactions: replaying it, the growth of revisions,
 and how many of its entries touched a set of collections.
 */
module CommitLog {
  import opened Basics
  import opened LocalDataContent
  import opened CommitPlan
  import opened CommitPlanLaws
  import opened LocalDataProtocol

  function StoreAfter(start: Store, log: seq<Entry>, n: nat): Store
    requires n <= |log|
  {
    if n == 0 then start else ApplyChange(StoreAfter(start, log, n - 1), log[n - 1].change)
  }

  /** The entry was allowed to land on this store, and its change is what its intent plans from exactly this store. */
  ghost predicate EntryOK(cfg: Config, store: Store, entry: Entry)
  {
    && IntentOK(cfg, entry.intent)
    && PlanOf(cfg, entry.intent, SeenIn(store, entry.intent.collections), entry.stamp)
        == Proceed(entry.change, entry.result)
    && CommitAllowed(store, entry.change)
  }

  ghost predicate LogOK(cfg: Config, start: Store, log: seq<Entry>)
  {
    forall i :: 0 <= i < |log| ==> EntryOK(cfg, StoreAfter(start, log, i), log[i])
  }

  lemma NextStore(start: Store, log: seq<Entry>, i: nat)
    requires i < |log|
    ensures StoreAfter(start, log, i + 1) == ApplyChange(StoreAfter(start, log, i), log[i].change)
  {
  }

  lemma EntryAt(cfg: Config, start: Store, log: seq<Entry>, i: nat)
    requires LogOK(cfg, start, log) && i < |log|
    ensures EntryOK(cfg, StoreAfter(start, log, i), log[i])
  {
  }

  lemma {:induction false} StoreAfterPrefix(start: Store, log: seq<Entry>, entry: Entry, n: nat)
    requires n <= |log|
    ensures StoreAfter(start, log + [entry], n) == StoreAfter(start, log, n)
  {
    if n > 0 {
      StoreAfterPrefix(start, log, entry, n - 1);
    }
  }

  lemma LogExtends(cfg: Config, start: Store, log: seq<Entry>, entry: Entry)
    requires LogOK(cfg, start, log) && EntryOK(cfg, StoreAfter(start, log, |log|), entry)
    ensures LogOK(cfg, start, log + [entry])
    ensures StoreAfter(start, log + [entry], |log| + 1) == ApplyChange(StoreAfter(start, log, |log|), entry.change)
  {
    hide EntryOK, ApplyChange;
    StoreAfterPrefix(start, log, entry, |log|);
    forall i | 0 <= i < |log + [entry]| ensures EntryOK(cfg, StoreAfter(start, log + [entry], i), (log + [entry])[i]) {
      if i < |log| {
        StoreAfterPrefix(start, log, entry, i);
      }
    }
  }

  lemma EntryKeepsStoreOK(cfg: Config, store: Store, entry: Entry)
    requires ValidConfig(cfg) && StoreOK(cfg, store) && EntryOK(cfg, store, entry)
    ensures StoreOK(cfg, ApplyChange(store, entry.change))
  {
    hide StoreOK, PlanOf, ApplyChange, ValidConfig, IntentOK, CommitAllowed;
    LandingKeepsStoreOK(cfg, store, entry.intent, entry.stamp);
  }

  /** Every store of the history reads back and keeps only referenced files. */
  lemma {:induction false} HistoryKeepsStoreOK(cfg: Config, start: Store, log: seq<Entry>, n: nat)
    requires ValidConfig(cfg) && StoreOK(cfg, start) && LogOK(cfg, start, log) && n <= |log|
    ensures StoreOK(cfg, StoreAfter(start, log, n))
  {
    hide StoreOK, ApplyChange, EntryOK, ValidConfig;
    if n > 0 {
      HistoryKeepsStoreOK(cfg, start, log, n - 1);
      EntryKeepsStoreOK(cfg, StoreAfter(start, log, n - 1), log[n - 1]);
    }
  }

  // ---------- Revisions ----------

  function RevisionAt(store: Store, c: Text): int
  {
    if c in store.held then store.held[c].manifest.revision else 0
  }

  /**
   One entry raises the revision of a collection it writes by one, from zero when
   absent, and leaves the others alone.
   */
  lemma EntryRaisesRevision(cfg: Config, store: Store, entry: Entry, c: Text)
    requires EntryOK(cfg, store, entry)
    ensures var next := ApplyChange(store, entry.change);
      && (c in entry.change.writes ==>
            && c in entry.intent.collections && c in entry.change.expected
            && c in next.held && RevisionAt(next, c) == RevisionAt(store, c) + 1
            && next.held[c].manifest == entry.change.writes[c].manifest
            && next.held[c].manifest.updatedAt == entry.stamp.updatedAt
            && entry.change.expected[c] == ManifestAt(store, c))
      && (c !in entry.change.writes ==>
          (c in next.held <==> c in store.held) && (c in store.held ==> next.held[c] == store.held[c]))
  {
    hide PlanOf;
    PlanShape(cfg, entry.intent, SeenIn(store, entry.intent.collections), entry.stamp);
  }

  /** Revisions only grow, collections never disappear, and an equal revision means nothing happened in between. */
  lemma {:induction false} RevisionsGrow(cfg: Config, start: Store, log: seq<Entry>, i: nat, j: nat, c: Text)
    requires LogOK(cfg, start, log) && i <= j <= |log|
    ensures var a, b := StoreAfter(start, log, i), StoreAfter(start, log, j);
      && RevisionAt(a, c) <= RevisionAt(b, c)
      && (c in a.held ==> c in b.held)
      && (c in a.held && RevisionAt(a, c) == RevisionAt(b, c) ==> b.held[c] == a.held[c])
    decreases j
  {
    hide EntryOK, ApplyChange;
    if i < j {
      RevisionsGrow(cfg, start, log, i, j - 1, c);
      assert EntryOK(cfg, StoreAfter(start, log, j - 1), log[j - 1]);
      EntryRaisesRevision(cfg, StoreAfter(start, log, j - 1), log[j - 1], c);
    }
  }

  /** No ABA: a manifest seen at two positions of a history means the collection did not change between them. */
  lemma ManifestsNeverRecur(cfg: Config, start: Store, log: seq<Entry>, i: nat, k: nat, j: nat, c: Text)
    requires LogOK(cfg, start, log) && i <= k <= j <= |log|
    requires ManifestAt(StoreAfter(start, log, i), c) == ManifestAt(StoreAfter(start, log, j), c)
    ensures SeenAt(StoreAfter(start, log, k), c) == SeenAt(StoreAfter(start, log, i), c)
    ensures c in StoreAfter(start, log, i).held ==>
      c in StoreAfter(start, log, k).held && StoreAfter(start, log, k).held[c] == StoreAfter(start, log, i).held[c]
  {
    RevisionsGrow(cfg, start, log, i, k, c);
    RevisionsGrow(cfg, start, log, k, j, c);
    RevisionsGrow(cfg, start, log, i, j, c);
  }

  /** Entry `k` wrote the collection and no later entry before `j` did. */
  ghost predicate LastWriter(log: seq<Entry>, k: int, j: nat, c: Text)
  {
    0 <= k < j <= |log| && c in log[k].change.writes && forall l :: k < l < j ==> c !in log[l].change.writes
  }

  /** A store shows the manifest of the last entry that wrote the collection. */
  lemma {:induction false} LastWriterShows(start: Store, log: seq<Entry>, k: nat, j: nat, c: Text)
    requires LastWriter(log, k, j, c)
    ensures ManifestAt(StoreAfter(start, log, j), c) == Some(log[k].change.writes[c].manifest)
    decreases j
  {
    if k < j - 1 {
      LastWriterShows(start, log, k, j - 1, c);
    }
  }

  /** Whatever manifest a later store shows that an earlier one did not was written by an entry in between. */
  lemma {:induction false} SomeEntryWrote(cfg: Config, start: Store, log: seq<Entry>, i: nat, j: nat, c: Text)
    returns (k: nat)
    requires LogOK(cfg, start, log) && i <= j <= |log|
    requires c in StoreAfter(start, log, j).held
    requires ManifestAt(StoreAfter(start, log, i), c) != ManifestAt(StoreAfter(start, log, j), c)
    ensures i <= k < j && c in log[k].change.writes
    ensures log[k].change.writes[c].manifest == StoreAfter(start, log, j).held[c].manifest
    ensures log[k].stamp.updatedAt == StoreAfter(start, log, j).held[c].manifest.updatedAt
    ensures LastWriter(log, k, j, c)
    decreases j
  {
    hide EntryOK, ApplyChange;
    assert EntryOK(cfg, StoreAfter(start, log, j - 1), log[j - 1]);
    EntryRaisesRevision(cfg, StoreAfter(start, log, j - 1), log[j - 1], c);
    if c in log[j - 1].change.writes {
      k := j - 1;
    } else {
      k := SomeEntryWrote(cfg, start, log, i, j - 1, c);
    }
  }

  // ---------- Rival commits ----------

  predicate Touches(entry: Entry, collections: set<Text>)
  {
    exists c :: c in entry.change.writes && c in collections
  }

  /** Committed transactions in `log[lo..hi]` that wrote any of `collections`. */
  function Rivals(log: seq<Entry>, lo: nat, hi: nat, collections: set<Text>): nat
    requires hi <= |log|
    decreases hi
  {
    if hi <= lo then 0
    else Rivals(log, lo, hi - 1, collections) + if Touches(log[hi - 1], collections) then 1 else 0
  }

  lemma {:induction false} RivalsPrefix(log: seq<Entry>, entry: Entry, lo: nat, hi: nat, collections: set<Text>)
    requires hi <= |log|
    ensures Rivals(log + [entry], lo, hi, collections) == Rivals(log, lo, hi, collections)
    decreases hi
  {
    if hi > lo {
      RivalsPrefix(log, entry, lo, hi - 1, collections);
    }
  }

  lemma {:induction false} RivalsAdd(log: seq<Entry>, lo: nat, mid: nat, hi: nat, collections: set<Text>)
    requires lo <= mid <= hi <= |log|
    ensures Rivals(log, lo, hi, collections) == Rivals(log, lo, mid, collections) + Rivals(log, mid, hi, collections)
    decreases hi
  {
    if mid < hi {
      RivalsAdd(log, lo, mid, hi - 1, collections);
    }
  }

  /** Without a rival commit a collection is exactly as it was. */
  lemma {:induction false} NoRivalNoChange(cfg: Config, start: Store, log: seq<Entry>, lo: nat, hi: nat,
                                           collections: set<Text>, c: Text)
    requires LogOK(cfg, start, log) && lo <= hi <= |log|
    requires Rivals(log, lo, hi, collections) == 0 && c in collections
    ensures SeenAt(StoreAfter(start, log, hi), c) == SeenAt(StoreAfter(start, log, lo), c)
    decreases hi
  {
    hide EntryOK, ApplyChange;
    if lo < hi {
      NoRivalNoChange(cfg, start, log, lo, hi - 1, collections, c);
      assert EntryOK(cfg, StoreAfter(start, log, hi - 1), log[hi - 1]);
      assert !Touches(log[hi - 1], collections);
      EntryRaisesRevision(cfg, StoreAfter(start, log, hi - 1), log[hi - 1], c);
    }
  }
}

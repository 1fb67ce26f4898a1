/**
 `retainTopAnalystReviewItems` and the admission counts: the heap-based stream
 keeps exactly the best items, in stages or at once, and every candidate is
 shown or counted as omitted.
 */
module ReviewAdmission {
  import opened Basics
  import opened Permutations
  import opened ReviewOrder
  import opened ReviewHeap
  import opened TopK

  function Order(now: Option<int>): (Entry, Entry) -> bool { (a: Entry, b: Entry) => AtMost(a, b, now) }

  function ItemOrder(now: Option<int>): (Item, Item) -> bool { (a: Item, b: Item) => Compare(a, b, now) <= 0 }

  lemma OrderIsTotal(now: Option<int>)
    ensures TotalPreorder(Order(now))
  {
    hide AtMost;
    forall a: Entry, b: Entry ensures AtMost(a, b, now) || AtMost(b, a, now) {
      AtMostTotal(a, b, now);
    }
    forall a: Entry, b: Entry, c: Entry ensures AtMost(a, b, now) && AtMost(b, c, now) ==> AtMost(a, c, now) {
      if AtMost(a, b, now) && AtMost(b, c, now) {
        AtMostTransitive(a, b, c, now);
      }
    }
  }

  lemma ItemOrderIsTotal(now: Option<int>)
    ensures TotalPreorder(ItemOrder(now))
  {
    hide Compare;
    forall a: Item, b: Item ensures Compare(a, b, now) <= 0 || Compare(b, a, now) <= 0 {
      CompareFlips(a, b, now);
    }
    forall a: Item, b: Item, c: Item ensures Compare(a, b, now) <= 0 && Compare(b, c, now) <= 0 ==>
      Compare(a, c, now) <= 0 {
      if Compare(a, b, now) <= 0 && Compare(b, c, now) <= 0 {
        CompareTransitive(a, b, c, now);
      }
    }
  }

  // ---------- The stream ----------

  /** One candidate against the heap: pushed while there is room, otherwise it may displace the root. */
  function Admit(heap: seq<Entry>, entry: Entry, limit: nat, now: Option<int>): seq<Entry>
  {
    if |heap| < limit then SiftUp(heap + [entry], |heap|, now)
    else if limit > 0 && !AtMost(heap[0], entry, now) then SiftDown(heap[0 := entry], 0, now)
    else heap
  }

  function AdmitAll(entries: seq<Entry>, limit: nat, now: Option<int>): seq<Entry>
  {
    if entries == [] then []
        else Admit(AdmitAll(entries[..|entries| - 1], limit, now), entries[|entries| - 1], limit, now)
  }

  lemma PushKeepsBest(heap: seq<Entry>, dropped: seq<Entry>, seen: seq<Entry>, entry: Entry, limit: nat,
                      now: Option<int>)
    requires IsHeap(heap, now) && Splits(heap, dropped, seen, limit, Order(now)) && |heap| < limit
    ensures IsHeap(Admit(heap, entry, limit, now), now)
        && Splits(Admit(heap, entry, limit, now), [], seen + [entry], limit, Order(now))
  {
    hide AtMost, SiftUp;
    SameSize(heap + dropped, seen);
    assert dropped == [] && heap + dropped == heap;
    var next := heap + [entry];
    SiftUpRestores(next, |heap|, now);
    SameSize(SiftUp(next, |heap|, now), next);
    assert SiftUp(next, |heap|, now) + [] == SiftUp(next, |heap|, now);
    assert multiset(next) == multiset(heap) + multiset{entry};
    assert multiset(seen + [entry]) == multiset(seen) + multiset{entry};
  }

  lemma ReplaceKeepsBest(heap: seq<Entry>, dropped: seq<Entry>, seen: seq<Entry>, entry: Entry, limit: nat,
                         now: Option<int>)
    requires IsHeap(heap, now) && Splits(heap, dropped, seen, limit, Order(now)) && |heap| == limit > 0
    requires !AtMost(heap[0], entry, now)
    ensures IsHeap(SiftDown(heap[0 := entry], 0, now), now)
    ensures Splits(SiftDown(heap[0 := entry], 0, now), dropped + [heap[0]], seen + [entry], limit, Order(now))
  {
    hide AtMost, SiftDown;
    var next := heap[0 := entry];
    var sifted := SiftDown(next, 0, now);
    SiftDownRestores(next, 0, now);
    AtMostTotal(heap[0], entry, now);
    assert heap[0] in heap;
    forall t, d | t in sifted && d in dropped + [heap[0]] ensures AtMost(t, d, now) {
      SameMembers(sifted, next, t);
      var i :| 0 <= i < |next| && next[i] == t;
      if d in dropped {
        assert Order(now)(heap[i], d) && Order(now)(heap[0], d);
        AtMostTransitive(entry, heap[0], d, now);
      } else {
        RootIsWorst(heap, i, now);
      }
    }
    SizesAfterReplace(heap, dropped, seen, entry);
    assert multiset(sifted + (dropped + [heap[0]])) == multiset(next) + multiset(dropped) + multiset{heap[0]};
  }

  lemma SizesAfterReplace(heap: seq<Entry>, dropped: seq<Entry>, seen: seq<Entry>, entry: Entry)
    requires heap != [] && Rearranged(heap + dropped, seen)
    ensures multiset(heap[0 := entry]) + multiset(dropped) + multiset{heap[0]} == multiset(seen + [entry])
  {
  }

  lemma SkipKeepsBest(heap: seq<Entry>, dropped: seq<Entry>, seen: seq<Entry>, entry: Entry, limit: nat,
                      now: Option<int>)
    requires IsHeap(heap, now) && Splits(heap, dropped, seen, limit, Order(now)) && |heap| == limit
    requires limit > 0 ==> AtMost(heap[0], entry, now)
    ensures Splits(heap, dropped + [entry], seen + [entry], limit, Order(now))
  {
    hide AtMost;
    forall t, d | t in heap && d in dropped + [entry] ensures AtMost(t, d, now) {
      if d in dropped {
        assert Order(now)(t, d);
      } else {
        var i :| 0 <= i < |heap| && heap[i] == t;
        RootIsWorst(heap, i, now);
        AtMostTransitive(t, heap[0], entry, now);
      }
    }
    assert heap + (dropped + [entry]) == (heap + dropped) + [entry];
    assert multiset((heap + dropped) + [entry]) == multiset(heap + dropped) + multiset{entry};
    assert multiset(seen + [entry]) == multiset(seen) + multiset{entry};
  }

  /** After every candidate the heap is a heap, and holds the best of those seen. */
  lemma {:induction false} AdmitAllKeepsBest(entries: seq<Entry>, limit: nat, now: Option<int>)
    returns (dropped: seq<Entry>)
    ensures IsHeap(AdmitAll(entries, limit, now), now)
    ensures Splits(AdmitAll(entries, limit, now), dropped, entries, limit, Order(now))
  {
    hide SiftUp, SiftDown, Order, AtMost, IsHeap, AllAtMost;
    if entries == [] {
      dropped := [];
      NothingKept(limit, now);
    } else {
      var n := |entries| - 1;
      var seen, entry := entries[..n], entries[n];
      var heap := AdmitAll(seen, limit, now);
      var before := AdmitAllKeepsBest(seen, limit, now);
      assert seen + [entry] == entries;
      if |heap| < limit {
        PushKeepsBest(heap, before, seen, entry, limit, now);
        dropped := [];
      } else if limit > 0 && !AtMost(heap[0], entry, now) {
        ReplaceKeepsBest(heap, before, seen, entry, limit, now);
        dropped := before + [heap[0]];
      } else {
        SkipKeepsBest(heap, before, seen, entry, limit, now);
        dropped := before + [entry];
      }
    }
  }

  lemma NothingKept(limit: nat, now: Option<int>)
    ensures IsHeap([], now) && Splits([], [], [], limit, Order(now))
  {
  }

  // ---------- Retaining items ----------

  /** What an item is compared as. */
  function Comparable(item: Item, lifecycleOf: Option<Item -> Lifecycle>): Item
  {
    if lifecycleOf.Some? then item.(lifecycle := Some(lifecycleOf.value(item))) else item
  }

  function EntryOf(item: Item,
                   lifecycleOf: Option<Item -> Lifecycle>): Entry { Entry(item, Comparable(item, lifecycleOf)) }

  function EntriesOf(items: seq<Item>, lifecycleOf: Option<Item -> Lifecycle>): (r: seq<Entry>)
    ensures |r| == |items|
  {
    seq(|items|, i requires 0 <= i < |items| => EntryOf(items[i], lifecycleOf))
  }

  function ItemsOf(entries: seq<Entry>): (r: seq<Item>)
    ensures |r| == |entries|
  {
    seq(|entries|, i requires 0 <= i < |entries| => entries[i].item)
  }

  function LimitOf(requested: Option<int>): nat
  {
    var limit := if requested.Some? then requested.value else MAX_ANALYST_REVIEW_ITEMS;
    if limit < 0 then 0 else if limit > MAX_ANALYST_REVIEW_ITEMS then MAX_ANALYST_REVIEW_ITEMS else limit
  }

  function InFamily(items: seq<Item>, family: Family): (n: nat)
    ensures n <= |items|
  {
    if items == [] then 0
        else InFamily(items[..|items| - 1], family) + (if items[|items| - 1].family == family then 1 else 0)
  }

  const FAMILIES: set<Family> :=
    {Case, Registration, Dns, Routing, Http, CertificateTransparency, LiveTls, Caa, CertificateIdentity,
     Comparison, DesiredPosture, Suppression, ChangeWindow, Relationship, Bulk, Rule, Packet}

  lemma EveryFamilyListed(f: Family)
    ensures f in FAMILIES
  {
  }

  type Counts = map<Family, nat>

  ghost predicate CountsOf(counts: Counts, items: seq<Item>)
  {
    forall f: Family :: f in counts && counts[f] == InFamily(items, f)
  }

  method CountFamilies(items: seq<Item>) returns (counts: Counts)
    ensures CountsOf(counts, items)
  {
    counts := map f | f in FAMILIES :: 0;
    forall f: Family ensures f in FAMILIES {
      EveryFamilyListed(f);
    }
    for i := 0 to |items|
      invariant CountsOf(counts, items[..i])
    {
      assert items[..i + 1][..i] == items[..i];
      counts := counts[items[i].family := counts[items[i].family] + 1];
    }
    assert items[..|items|] == items;
  }

  method RetainTopAnalystReviewItems(candidates: seq<Item>, now: Option<int>, lifecycleOf: Option<Item -> Lifecycle>,
                                     requested: Option<int>)
    returns (items: seq<Item>, candidateCounts: Counts, retainedCounts: Counts)
    ensures IsTop(EntriesOf(items, lifecycleOf), EntriesOf(candidates, lifecycleOf), LimitOf(requested), Order(now))
    ensures EntriesOf(items, lifecycleOf)
        == Sort(AdmitAll(EntriesOf(candidates, lifecycleOf), LimitOf(requested), now), Order(now))
    ensures CountsOf(candidateCounts, candidates) && CountsOf(retainedCounts, items)
  {
    hide SiftUp, SiftDown, Compare, IsHeap, Sort, Order, InFamily;
    var limit := LimitOf(requested);
    candidateCounts := CountFamilies([]);
    var heap := new Entry[limit](_ => Entry(NO_ITEM, NO_ITEM));
    var size := 0;
    ghost var entries := EntriesOf(candidates, lifecycleOf);
    for i := 0 to |candidates|
      invariant size <= limit && heap[..size] == AdmitAll(entries[..i], limit, now)
      invariant CountsOf(candidateCounts, candidates[..i])
    {
      CountsAdvance(candidateCounts, candidates, i);
      candidateCounts := candidateCounts[candidates[i].family := candidateCounts[candidates[i].family] + 1];
      var entry := EntryOf(candidates[i], lifecycleOf);
      ghost var before := heap[..size];
      assert entries[..i + 1][..i] == entries[..i] && entries[..i + 1][i] == entry;
      if size < limit {
        heap[size] := entry;
        size := size + 1;
        assert heap[..size] == before + [entry];
        HeapSiftUp(heap, size, size - 1, now);
      } else if limit > 0 {
        CompareFlips(entry.comparable, heap[0].comparable, now);
        if Compare(entry.comparable, heap[0].comparable, now) < 0 {
          heap[0] := entry;
          assert heap[..size] == before[0 := entry];
          HeapSiftDown(heap, size, now);
        }
      }
    }
    assert candidates[..|candidates|] == candidates && entries[..|entries|] == entries;
    var sorted := Sort(heap[..size], Order(now));
    items := ItemsOf(sorted);
    KeptEntriesAreCandidates(entries, limit, now, lifecycleOf, candidates);
    RetainedIsTop(entries, limit, now);
    retainedCounts := CountFamilies(items);
  }

  const NO_ITEM: Item := Item([], [], Case, Normal, None, Complete, None, None, [])

  lemma CountsAdvance(counts: Counts, items: seq<Item>, i: nat)
    requires i < |items| && CountsOf(counts, items[..i])
    ensures items[i].family in counts
    ensures CountsOf(counts[items[i].family := counts[items[i].family] + 1], items[..i + 1])
  {
    assert items[..i + 1][..i] == items[..i];
  }

  /** The sorted heap is the best of the candidates. */
  lemma RetainedIsTop(entries: seq<Entry>, limit: nat, now: Option<int>)
    ensures IsTop(Sort(AdmitAll(entries, limit, now), Order(now)), entries, limit, Order(now))
  {
    hide SiftUp, SiftDown, Order, IsHeap, AdmitAll;
    OrderIsTotal(now);
    var heap := AdmitAll(entries, limit, now);
    var dropped := AdmitAllKeepsBest(entries, limit, now);
    SortSorts(heap, Order(now));
    var sorted := Sort(heap, Order(now));
    SameSize(sorted, heap);
    forall t, d | t in sorted && d in dropped ensures Order(now)(t, d) {
      SameMembers(sorted, heap, t);
    }
    assert multiset(sorted + dropped) == multiset(heap + dropped);
    assert Splits(sorted, dropped, entries, limit, Order(now));
  }

  /** What is kept are candidates, so their compared forms are unchanged. */
  lemma KeptEntriesAreCandidates(entries: seq<Entry>, limit: nat, now: Option<int>,
                                 lifecycleOf: Option<Item -> Lifecycle>, candidates: seq<Item>)
    requires entries == EntriesOf(candidates, lifecycleOf)
    ensures var sorted := Sort(AdmitAll(entries, limit, now), Order(now));
        EntriesOf(ItemsOf(sorted), lifecycleOf) == sorted
  {
    hide SiftUp, SiftDown, Order, IsHeap, AdmitAll, Sort;
    RetainedIsTop(entries, limit, now);
    var sorted := Sort(AdmitAll(entries, limit, now), Order(now));
    var dropped :| Splits(sorted, dropped, entries, limit, Order(now));
    forall i | 0 <= i < |sorted| ensures sorted[i] == EntryOf(sorted[i].item, lifecycleOf) {
      assert (sorted + dropped)[i] == sorted[i];
      assert sorted[i] in sorted + dropped;
      SameMembers(sorted + dropped, entries, sorted[i]);
    }
  }

  /** The heap refines the simple form: place by place it ties with sorting everything and keeping the first `k`. */
  lemma HeapRefinesSortThenTake(entries: seq<Entry>, limit: nat, now: Option<int>)
    ensures var fast := Sort(AdmitAll(entries, limit, now), Order(now));
      var simple := SortThenTake(entries, limit, Order(now));
      && |fast| == |simple|
      && (forall i :: 0 <= i < |fast| ==> Compare(fast[i].comparable, simple[i].comparable, now) == 0)
      && (DistinctIdentities(entries) ==> fast == simple)
  {
    hide Compare, AdmitAll, Sort;
    OrderIsTotal(now);
    RetainedIsTop(entries, limit, now);
    SortThenTakeIsTop(entries, limit, Order(now));
    SameSelection(entries, entries, Sort(AdmitAll(entries, limit, now), Order(now)),
                  SortThenTake(entries, limit, Order(now)), limit, now);
  }

  predicate DistinctIdentities(entries: seq<Entry>)
  {
    forall i, j :: 0 <= i < j < |entries| ==>
      entries[i].comparable.subjectKey != entries[j].comparable.subjectKey
          || entries[i].comparable.id != entries[j].comparable.id
  }

  /**
   Arrival order never shows: two selections from rearranged candidates tie place
   by place, and are equal when identities are distinct.
   */
  lemma SameSelection(entries: seq<Entry>, again: seq<Entry>, mine: seq<Entry>, other: seq<Entry>, limit: nat,
                      now: Option<int>)
    requires Rearranged(entries, again)
    requires IsTop(mine, entries, limit, Order(now)) && IsTop(other, again, limit, Order(now))
    ensures |mine| == |other|
    ensures forall i :: 0 <= i < |mine| ==> Compare(mine[i].comparable, other[i].comparable, now) == 0
    ensures DistinctIdentities(entries) ==> mine == other
  {
    hide Compare, DistinctIdentities;
    OrderIsTotal(now);
    TopIsUnique(mine, other, entries, again, limit, Order(now));
    forall i | 0 <= i < |mine|
      ensures Compare(mine[i].comparable, other[i].comparable, now) == 0
      ensures DistinctIdentities(entries) ==> mine[i] == other[i]
    {
      assert Order(now)(mine[i], other[i]) && Order(now)(other[i], mine[i]);
      CompareFlips(mine[i].comparable, other[i].comparable, now);
      if DistinctIdentities(entries) {
        SelectedIsCandidate(mine, entries, limit, now, i);
        SelectedIsCandidate(other, again, limit, now, i);
        SameMembers(entries, again, other[i]);
        TieIsSame(entries, mine[i], other[i], now);
      }
    }
  }

  lemma SelectedIsCandidate(top: seq<Entry>, all: seq<Entry>, limit: nat, now: Option<int>, i: nat)
    requires IsTop(top, all, limit, Order(now)) && i < |top|
    ensures top[i] in all
  {
    hide Order;
    var dropped :| Splits(top, dropped, all, limit, Order(now));
    assert (top + dropped)[i] == top[i];
    SameMembers(top + dropped, all, top[i]);
  }

  lemma TieIsSame(entries: seq<Entry>, a: Entry, b: Entry, now: Option<int>)
    requires DistinctIdentities(entries) && a in entries && b in entries
        && Compare(a.comparable, b.comparable, now) == 0
    ensures a == b
  {
    hide Compare;
    TiesShareIdentity(a.comparable, b.comparable, now);
    var i :| 0 <= i < |entries| && entries[i] == a;
    var j :| 0 <= j < |entries| && entries[j] == b;
  }

  // ---------- Stages and counts ----------

  function Compared(entries: seq<Entry>): (r: seq<Item>)
    ensures |r| == |entries|
  {
    seq(|entries|, i requires 0 <= i < |entries| => entries[i].comparable)
  }

  lemma ComparedWithout(s: seq<Entry>, k: nat)
    requires k < |s|
    ensures multiset(Compared(s)) == multiset(Compared(Without(s, k))) + multiset{s[k].comparable}
  {
    assert Without(Compared(s), k) == Compared(Without(s, k));
    WithoutRemovesOne(Compared(s), k);
  }

  lemma {:induction false} ComparedIgnoresOrder(a: seq<Entry>, b: seq<Entry>)
    requires Rearranged(a, b)
    ensures Rearranged(Compared(a), Compared(b))
  {
    hide Compared;
    SameSize(a, b);
    if a != [] {
      SameMembers(a, b, a[0]);
      var k :| 0 <= k < |b| && b[k] == a[0];
      WithoutRemovesOne(a, 0);
      WithoutRemovesOne(b, k);
      ComparedIgnoresOrder(Without(a, 0), Without(b, k));
      ComparedWithout(a, 0);
      ComparedWithout(b, k);
    }
  }

  /** A selection of entries selects their compared forms. */
  lemma ComparedIsTop(top: seq<Entry>, all: seq<Entry>, limit: nat, now: Option<int>)
    requires IsTop(top, all, limit, Order(now))
    ensures IsTop(Compared(top), Compared(all), limit, ItemOrder(now))
  {
    hide Compare;
    var dropped :| Splits(top, dropped, all, limit, Order(now));
    ComparedIgnoresOrder(top + dropped, all);
    assert Compared(top + dropped) == Compared(top) + Compared(dropped);
    forall t, d | t in Compared(top) && d in Compared(dropped) ensures ItemOrder(now)(t, d) {
      var i :| 0 <= i < |top| && Compared(top)[i] == t;
      var j :| 0 <= j < |dropped| && Compared(dropped)[j] == d;
      assert top[i] in top && dropped[j] in dropped;
      assert Order(now)(top[i], dropped[j]);
    }
    forall i, j | 0 <= i < j < |top| ensures ItemOrder(now)(Compared(top)[i], Compared(top)[j]) {
      assert Order(now)(top[i], top[j]);
    }
    assert Splits(Compared(top), Compared(dropped), Compared(all), limit, ItemOrder(now));
  }

  /** What a bounded projection hands on is the best of its candidates, as the inbox will compare them. */
  lemma ProjectionKeepsBest(candidates: seq<Item>, lifecycleOf: Option<Item -> Lifecycle>, limit: nat, now: Option<int>)
    ensures var entries := EntriesOf(candidates, lifecycleOf);
      IsTop(Compared(Sort(AdmitAll(entries, limit, now), Order(now))), Compared(entries), limit, ItemOrder(now))
  {
    hide IsTop, Sort, AdmitAll, Compared, ItemOrder, Order;
    var entries := EntriesOf(candidates, lifecycleOf);
    RetainedIsTop(entries, limit, now);
    ComparedIsTop(Sort(AdmitAll(entries, limit, now), Order(now)), entries, limit, now);
  }

  function Flat(parts: seq<seq<Item>>): seq<Item>
  {
    if parts == [] then [] else parts[0] + Flat(parts[1..])
  }

  /** Each projection kept the best of its own candidates. */
  ghost predicate EachTop(kept: seq<seq<Item>>, parts: seq<seq<Item>>, limit: nat, now: Option<int>)
  {
    |kept| == |parts| && forall i :: 0 <= i < |parts| ==> IsTop(kept[i], parts[i], limit, ItemOrder(now))
  }

  /**
   Admission in stages loses nothing: an inbox built from bounded projections and
   its own items is the inbox built from every candidate at once.
   */
  lemma {:induction false} StagedAdmission(kept: seq<seq<Item>>, parts: seq<seq<Item>>, own: seq<Item>,
                                           inbox: seq<Item>, limit: nat, now: Option<int>)
    requires EachTop(kept, parts, limit, now)
    requires IsTop(inbox, Flat(kept) + own, limit, ItemOrder(now))
    ensures IsTop(inbox, Flat(parts) + own, limit, ItemOrder(now))
  {
    hide ItemOrder, IsTop;
    if parts != [] {
      ItemOrderIsTotal(now);
      var more := Flat(kept[1..]) + own;
      assert Flat(kept) + own == kept[0] + more;
      TopInStages(kept[0], parts[0], more, inbox, limit, ItemOrder(now));
      assert parts[0] + (Flat(kept[1..]) + own) == (parts[0] + Flat(kept[1..])) + own;
      Exchange(parts[0], Flat(kept[1..]), own);
      TopIgnoresOrder(inbox, parts[0] + more, Flat(kept[1..]) + (own + parts[0]), limit, ItemOrder(now));
      StagedAdmission(kept[1..], parts[1..], own + parts[0], inbox, limit, now);
      Exchange(parts[0], Flat(parts[1..]), own);
      TopIgnoresOrder(inbox, Flat(parts[1..]) + (own + parts[0]), Flat(parts) + own, limit, ItemOrder(now));
    } else {
      assert Flat(kept) == Flat(parts);
    }
  }

  lemma Exchange<T>(a: seq<T>, b: seq<T>, c: seq<T>)
    ensures Rearranged(a + (b + c), b + (c + a)) && Rearranged(b + (c + a), (a + b) + c)
  {
  }

  lemma {:induction false} InFamilyOfConcat(a: seq<Item>, b: seq<Item>, f: Family)
    ensures InFamily(a + b, f) == InFamily(a, f) + InFamily(b, f)
  {
    if b == [] {
      assert a + b == a;
    } else {
      assert (a + b)[..|a + b| - 1] == a + b[..|b| - 1];
      InFamilyOfConcat(a, b[..|b| - 1], f);
    }
  }

  /** `projectionAdmission`: what the projections together report as omitted, kept within exact integers. */
  function OmittedBy(kept: seq<seq<Item>>, parts: seq<seq<Item>>, f: Family): nat
    requires |kept| == |parts|
  {
    if parts == [] then 0
    else
      var last := |parts| - 1;
      var omitted := InFamily(parts[last], f) - InFamily(kept[last], f);
      Saturated(OmittedBy(kept[..last], parts[..last], f) + if omitted > 0 then omitted else 0)
  }

  function Saturated(n: nat): nat { if n > MAX_SAFE_INTEGER then MAX_SAFE_INTEGER else n }

  datatype AdmissionCount = AdmissionCount(displayed: nat, totalAtLeast: nat, omittedAtLeast: nat)

  /** `buildAdmission` for one family. */
  function FamilyAdmission(kept: seq<seq<Item>>, parts: seq<seq<Item>>, own: seq<Item>, inbox: seq<Item>,
                           f: Family): AdmissionCount
    requires |kept| == |parts|
  {
    var displayed := InFamily(inbox, f);
    var total := Saturated(InFamily(Flat(kept) + own, f) + OmittedBy(kept, parts, f));
    AdmissionCount(displayed, total, if total > displayed then total - displayed else 0)
  }

  lemma InFamilyWithout(s: seq<Item>, k: nat, f: Family)
    requires k < |s|
    ensures InFamily(s, f) == InFamily(Without(s, k), f) + if s[k].family == f then 1 else 0
  {
    InFamilyOfConcat(s[..k], s[k + 1..], f);
    InFamilyOfConcat(s[..k + 1], s[k + 1..], f);
    assert s == s[..k + 1] + s[k + 1..] && s[..k + 1][..k] == s[..k];
  }

  lemma {:induction false} InFamilyIgnoresOrder(a: seq<Item>, b: seq<Item>, f: Family)
    requires Rearranged(a, b)
    ensures InFamily(a, f) == InFamily(b, f)
  {
    hide InFamily;
    SameSize(a, b);
    if a != [] {
      SameMembers(a, b, a[0]);
      var k :| 0 <= k < |b| && b[k] == a[0];
      WithoutRemovesOne(a, 0);
      WithoutRemovesOne(b, k);
      InFamilyIgnoresOrder(Without(a, 0), Without(b, k), f);
      InFamilyWithout(a, 0, f);
      InFamilyWithout(b, k, f);
    } else {
      assert b == [];
    }
  }

  lemma KeptAreFewer(top: seq<Item>, all: seq<Item>, limit: nat, now: Option<int>, f: Family)
    requires IsTop(top, all, limit, ItemOrder(now))
    ensures InFamily(top, f) <= InFamily(all, f)
  {
    hide ItemOrder;
    var dropped :| Splits(top, dropped, all, limit, ItemOrder(now));
    InFamilyIgnoresOrder(top + dropped, all, f);
    InFamilyOfConcat(top, dropped, f);
  }

  lemma NothingOmitted(kept: seq<seq<Item>>, parts: seq<seq<Item>>, f: Family)
    requires |kept| == |parts| == 0
    ensures InFamily(Flat(kept), f) == InFamily(Flat(parts), f) == OmittedBy(kept, parts, f) == 0
  {
  }

  lemma {:induction false} KeptPlusOmitted(kept: seq<seq<Item>>, parts: seq<seq<Item>>, limit: nat, now: Option<int>,
                                           f: Family)
    requires EachTop(kept, parts, limit, now)
    ensures InFamily(Flat(kept), f) <= InFamily(Flat(parts), f)
    ensures OmittedBy(kept, parts, f) == Saturated(InFamily(Flat(parts), f) - InFamily(Flat(kept), f))
  {
    hide IsTop, ItemOrder, InFamily, Flat;
    if parts == [] {
      NothingOmitted(kept, parts, f);
    } else {
      var last := |parts| - 1;
      KeptPlusOmitted(kept[..last], parts[..last], limit, now, f);
      KeptAreFewer(kept[last], parts[last], limit, now, f);
      FlatOfLast(kept);
      FlatOfLast(parts);
      InFamilyOfConcat(Flat(kept[..last]), kept[last], f);
      InFamilyOfConcat(Flat(parts[..last]), parts[last], f);
    }
  }

  lemma {:induction false} FlatOfLast(parts: seq<seq<Item>>)
    requires parts != []
    ensures Flat(parts) == Flat(parts[..|parts| - 1]) + parts[|parts| - 1]
  {
    if |parts| > 1 {
      FlatOfLast(parts[1..]);
      assert parts[1..][..|parts| - 2] == parts[..|parts| - 1][1..];
    } else {
      assert parts[..0] == [];
    }
  }

  /**
   Every candidate of every stage is displayed or counted as omitted, family by
   family, up to the largest exact integer.
   */
  lemma EveryCandidateAccountedFor(kept: seq<seq<Item>>, parts: seq<seq<Item>>, own: seq<Item>, inbox: seq<Item>,
                                   limit: nat, now: Option<int>, f: Family)
    requires EachTop(kept, parts, limit, now)
    requires IsTop(inbox, Flat(kept) + own, limit, ItemOrder(now))
    ensures var count := FamilyAdmission(kept, parts, own, inbox, f);
      && count.totalAtLeast == Saturated(InFamily(Flat(parts) + own, f))
      && (InFamily(Flat(parts) + own, f) <= MAX_SAFE_INTEGER ==>
          count.displayed + count.omittedAtLeast == count.totalAtLeast)
  {
    hide IsTop, ItemOrder, InFamily;
    KeptPlusOmitted(kept, parts, limit, now, f);
    StagedAdmission(kept, parts, own, inbox, limit, now);
    KeptAreFewer(inbox, Flat(parts) + own, limit, now, f);
    InFamilyOfConcat(Flat(kept), own, f);
    InFamilyOfConcat(Flat(parts), own, f);
  }
}

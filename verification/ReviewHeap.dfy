/**
 Bounded admission of review items: a max-heap, worst item at the root, keeps
 the best `limit` of a stream of candidates and is sorted once at the end.

 The sifting loops run on an array; `SiftUp` and `SiftDown` say on sequences
 what they compute.
 */
module ReviewHeap {
  import opened Basics
  import opened Permutations
  import opened ReviewOrder

  const MAX_ANALYST_REVIEW_ITEMS: nat := 500

  /** A candidate with the form it is compared in: the same item, with its lifecycle when a review state was given. */
  datatype Entry = Entry(item: Item, comparable: Item)

  /** `a` may be listed before `b`. */
  predicate AtMost(a: Entry, b: Entry, now: Option<int>)
  {
    Compare(a.comparable, b.comparable, now) <= 0
  }

  lemma AtMostTransitive(a: Entry, b: Entry, c: Entry, now: Option<int>)
    requires AtMost(a, b, now) && AtMost(b, c, now)
    ensures AtMost(a, c, now)
  {
    hide Compare;
    CompareTransitive(a.comparable, b.comparable, c.comparable, now);
  }

  lemma AtMostTotal(a: Entry, b: Entry, now: Option<int>)
    ensures AtMost(a, b, now) || AtMost(b, a, now)
    ensures AtMost(a, a, now)
  {
    hide Compare;
    CompareFlips(a.comparable, b.comparable, now);
    CompareSelf(a.comparable, now);
  }

  // ---------- Sifting ----------

  function Swapped<T>(s: seq<T>, i: nat, j: nat): (r: seq<T>)
    requires i < |s| && j < |s|
    ensures |r| == |s|
  {
    s[i := s[j]][j := s[i]]
  }

  lemma SwappedIsRearranged<T>(s: seq<T>, i: nat, j: nat)
    requires i < |s| && j < |s|
    ensures Rearranged(Swapped(s, i, j), s)
  {
  }

  function Parent(i: nat): (p: nat)
    requires i > 0
    ensures p < i
  {
    (i - 1) / 2
  }

  function SiftUp(heap: seq<Entry>, index: nat, now: Option<int>): (r: seq<Entry>)
    requires index < |heap|
    ensures |r| == |heap|
    decreases index
  {
    if index == 0 || AtMost(heap[index], heap[Parent(index)], now) then heap
    else SiftUp(Swapped(heap, index, Parent(index)), Parent(index), now)
  }

  /** The child listed last, when there is one. */
  function WorseChild(heap: seq<Entry>, index: nat, now: Option<int>): (child: nat)
    requires 2 * index + 1 < |heap|
    ensures index < child < |heap| && Parent(child) == index
  {
    var left, right := 2 * index + 1, 2 * index + 2;
    if right < |heap| && !AtMost(heap[right], heap[left], now) then right else left
  }

  function SiftDown(heap: seq<Entry>, index: nat, now: Option<int>): (r: seq<Entry>)
    requires index < |heap|
    ensures |r| == |heap|
    decreases |heap| - index
  {
    if 2 * index + 1 >= |heap| then heap
    else
      var child := WorseChild(heap, index, now);
      if AtMost(heap[child], heap[index], now) then heap else SiftDown(Swapped(heap, index, child), child, now)
  }

  // ---------- The heap property ----------

  /** No entry is listed after its parent: the root is a worst one. */
  ghost predicate IsHeap(heap: seq<Entry>, now: Option<int>)
  {
    forall i :: 0 < i < |heap| ==> AtMost(heap[i], heap[Parent(i)], now)
  }

  /** A heap except that `hole` may be listed after its parent; its children still respect its parent. */
  ghost predicate HeapButUp(heap: seq<Entry>, hole: nat, now: Option<int>)
  {
    && hole < |heap|
    && (forall i :: 0 < i < |heap| && i != hole ==> AtMost(heap[i], heap[Parent(i)], now))
    && (hole > 0 ==> forall i :: 0 < i < |heap| && Parent(i) == hole ==> AtMost(heap[i], heap[Parent(hole)], now))
  }

  /** A heap except that `hole` may be listed before its children; they still respect its parent. */
  ghost predicate HeapButDown(heap: seq<Entry>, hole: nat, now: Option<int>)
  {
    && hole < |heap|
    && (forall i :: 0 < i < |heap| && Parent(i) != hole ==> AtMost(heap[i], heap[Parent(i)], now))
    && (hole > 0 ==> forall i :: 0 < i < |heap| && Parent(i) == hole ==> AtMost(heap[i], heap[Parent(hole)], now))
  }

  lemma {:induction false} SiftUpRestores(heap: seq<Entry>, index: nat, now: Option<int>)
    requires HeapButUp(heap, index, now)
    ensures IsHeap(SiftUp(heap, index, now), now)
    ensures Rearranged(SiftUp(heap, index, now), heap)
    decreases index
  {
    hide AtMost;
    if index != 0 && !AtMost(heap[index], heap[Parent(index)], now) {
      var p := Parent(index);
      var next := Swapped(heap, index, p);
      AtMostTotal(heap[index], heap[p], now);
      SwappedIsRearranged(heap, index, p);
      forall i | 0 < i < |next| && i != p ensures AtMost(next[i], next[Parent(i)], now) {
        if Parent(i) == p && i != index {
          AtMostTransitive(heap[i], heap[p], heap[index], now);
        }
      }
      if p > 0 {
        forall i | 0 < i < |next| && Parent(i) == p ensures AtMost(next[i], next[Parent(p)], now) {
          if i != index {
            AtMostTransitive(heap[i], heap[p], heap[Parent(p)], now);
          }
        }
      }
      SiftUpRestores(next, p, now);
    }
  }

  lemma WorseChildIsWorst(heap: seq<Entry>, index: nat, i: nat, now: Option<int>)
    requires 2 * index + 1 < |heap| && 0 < i < |heap| && Parent(i) == index
    ensures AtMost(heap[i], heap[WorseChild(heap, index, now)], now)
  {
    hide AtMost;
    AtMostTotal(heap[i], heap[i], now);
    assert i == 2 * index + 1 || i == 2 * index + 2;
    if 2 * index + 2 < |heap| {
      AtMostTotal(heap[2 * index + 1], heap[2 * index + 2], now);
    }
  }

  lemma {:induction false} SiftDownRestores(heap: seq<Entry>, index: nat, now: Option<int>)
    requires HeapButDown(heap, index, now)
    ensures IsHeap(SiftDown(heap, index, now), now)
    ensures Rearranged(SiftDown(heap, index, now), heap)
    decreases |heap| - index
  {
    hide AtMost, WorseChild;
    if 2 * index + 1 >= |heap| {
      return;
    }
    var child := WorseChild(heap, index, now);
    forall i | 0 < i < |heap| && Parent(i) == index ensures AtMost(heap[i], heap[child], now) {
      WorseChildIsWorst(heap, index, i, now);
    }
    if AtMost(heap[child], heap[index], now) {
      forall i | 0 < i < |heap| && Parent(i) == index ensures AtMost(heap[i], heap[index], now) {
        AtMostTransitive(heap[i], heap[child], heap[index], now);
      }
    } else {
      var next := Swapped(heap, index, child);
      AtMostTotal(heap[child], heap[index], now);
      SwappedIsRearranged(heap, index, child);
      SiftDownRestores(next, child, now);
    }
  }

  /** The root is listed last. */
  lemma {:induction false} RootIsWorst(heap: seq<Entry>, i: nat, now: Option<int>)
    requires IsHeap(heap, now) && i < |heap|
    ensures AtMost(heap[i], heap[0], now)
  {
    hide AtMost;
    if i == 0 {
      AtMostTotal(heap[0], heap[0], now);
    } else {
      RootIsWorst(heap, Parent(i), now);
      AtMostTransitive(heap[i], heap[Parent(i)], heap[0], now);
    }
  }

  // ---------- The sifting loops ----------

  method HeapSiftUp(heap: array<Entry>, size: nat, start: nat, now: Option<int>)
    requires start < size <= heap.Length
    modifies heap
    ensures heap[..size] == SiftUp(old(heap[..size]), start, now)
    ensures heap[size..] == old(heap[size..])
  {
    hide Compare;
    var index := start;
    while index > 0
      invariant 0 <= index <= start
      invariant SiftUp(heap[..size], index, now) == SiftUp(old(heap[..size]), start, now)
      invariant heap[size..] == old(heap[size..])
    {
      var parent := (index - 1) / 2;
      if Compare(heap[parent].comparable, heap[index].comparable, now) >= 0 {
        CompareFlips(heap[parent].comparable, heap[index].comparable, now);
        return;
      }
      CompareFlips(heap[parent].comparable, heap[index].comparable, now);
      ghost var next := Swapped(heap[..size], index, parent);
      heap[parent], heap[index] := heap[index], heap[parent];
      assert heap[..size] == next;
      index := parent;
    }
  }

  method HeapSiftDown(heap: array<Entry>, size: nat, now: Option<int>)
    requires 0 < size <= heap.Length
    modifies heap
    ensures heap[..size] == SiftDown(old(heap[..size]), 0, now)
    ensures heap[size..] == old(heap[size..])
  {
    hide Compare;
    var index := 0;
    while true
      invariant index < size
      invariant SiftDown(heap[..size], index, now) == SiftDown(old(heap[..size]), 0, now)
      invariant heap[size..] == old(heap[size..])
      decreases size - index
    {
      var left := index * 2 + 1;
      if left >= size {
        return;
      }
      var right := left + 1;
      var worse :=
        if right < size && Compare(heap[right].comparable, heap[left].comparable, now) > 0 then right else left;
      if right < size {
        CompareFlips(heap[right].comparable, heap[left].comparable, now);
      }
      assert worse == WorseChild(heap[..size], index, now);
      CompareFlips(heap[index].comparable, heap[worse].comparable, now);
      if Compare(heap[index].comparable, heap[worse].comparable, now) >= 0 {
        return;
      }
      ghost var next := Swapped(heap[..size], index, worse);
      heap[index], heap[worse] := heap[worse], heap[index];
      assert heap[..size] == next;
      index := worse;
    }
  }
}

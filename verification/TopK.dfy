/**
 The best `k` of a collection under a total preorder: what it means, that it is
 unique up to ties, and that it may be taken in stages.
 */
module TopK {
  import opened Permutations

  ghost predicate TotalPreorder<T(!new)>(le: (T, T) -> bool)
  {
    && (forall a, b :: le(a, b) || le(b, a))
    && (forall a, b, c :: le(a, b) && le(b, c) ==> le(a, c))
  }

  predicate Sorted<T>(s: seq<T>, le: (T, T) -> bool)
  {
    forall i, j :: 0 <= i < j < |s| ==> le(s[i], s[j])
  }

  ghost predicate AllAtMost<T(!new)>(kept: seq<T>, dropped: seq<T>, le: (T, T) -> bool)
  {
    forall t, d :: t in kept && d in dropped ==> le(t, d)
  }

  function Min(a: nat, b: nat): nat { if a < b then a else b }

  /**
   `kept` and `dropped` split `all`, as many are kept as fit, and nothing dropped
   comes strictly before anything kept.
   */
  ghost predicate Splits<T(!new)>(kept: seq<T>, dropped: seq<T>, all: seq<T>, k: nat, le: (T, T) -> bool)
  {
    Rearranged(kept + dropped, all) && |kept| == Min(k, |all|) && AllAtMost(kept, dropped, le)
  }

  ghost predicate IsTop<T(!new)>(top: seq<T>, all: seq<T>, k: nat, le: (T, T) -> bool)
  {
    Sorted(top, le) && exists dropped :: Splits(top, dropped, all, k, le)
  }

  // ---------- Counting ----------

  function CountAtMost<T>(s: seq<T>, x: T, le: (T, T) -> bool): (n: nat)
    ensures n <= |s|
  {
    if s == [] then 0 else (if le(s[0], x) then 1 else 0) + CountAtMost(s[1..], x, le)
  }

  lemma {:induction false} CountOfConcat<T>(a: seq<T>, b: seq<T>, x: T, le: (T, T) -> bool)
    ensures CountAtMost(a + b, x, le) == CountAtMost(a, x, le) + CountAtMost(b, x, le)
  {
    if a == [] {
      assert a + b == b;
    } else {
      assert (a + b)[1..] == a[1..] + b;
      CountOfConcat(a[1..], b, x, le);
    }
  }

  lemma CountWithout<T>(s: seq<T>, k: nat, x: T, le: (T, T) -> bool)
    requires k < |s|
    ensures CountAtMost(s, x, le) == CountAtMost(Without(s, k), x, le) + if le(s[k], x) then 1 else 0
  {
    CountOfConcat(s[..k], s[k + 1..], x, le);
    CountOfConcat(s[..k], s[k..], x, le);
    assert s == s[..k] + s[k..] && s[k..][1..] == s[k + 1..];
  }

  lemma {:induction false} CountIgnoresOrder<T>(a: seq<T>, b: seq<T>, x: T, le: (T, T) -> bool)
    requires Rearranged(a, b)
    ensures CountAtMost(a, x, le) == CountAtMost(b, x, le)
  {
    hide CountAtMost;
    SameSize(a, b);
    if a != [] {
      SameMembers(a, b, a[0]);
      var k :| 0 <= k < |b| && b[k] == a[0];
      WithoutRemovesOne(b, k);
      WithoutRemovesOne(a, 0);
      CountIgnoresOrder(Without(a, 0), Without(b, k), x, le);
      CountWithout(a, 0, x, le);
      CountWithout(b, k, x, le);
    } else {
      assert a == b;
    }
  }

  lemma {:induction false} CountWhenAll<T>(s: seq<T>, x: T, le: (T, T) -> bool)
    requires forall i :: 0 <= i < |s| ==> le(s[i], x)
    ensures CountAtMost(s, x, le) == |s|
  {
    if s != [] {
      CountWhenAll(s[1..], x, le);
    }
  }

  lemma {:induction false} CountWhenNone<T>(s: seq<T>, x: T, le: (T, T) -> bool)
    requires forall i :: 0 <= i < |s| ==> !le(s[i], x)
    ensures CountAtMost(s, x, le) == 0
  {
    if s != [] {
      CountWhenNone(s[1..], x, le);
    }
  }

  lemma CountMisses<T>(s: seq<T>, i: nat, x: T, le: (T, T) -> bool)
    requires i < |s| && !le(s[i], x)
    ensures CountAtMost(s, x, le) < |s|
  {
    CountOfConcat(s[..i], s[i..], x, le);
    assert s == s[..i] + s[i..];
  }

  // ---------- Uniqueness ----------

  lemma CountReaches<T(!new)>(mine: seq<T>, dropped: seq<T>, le: (T, T) -> bool, i: nat)
    requires TotalPreorder(le) && Sorted(mine, le) && i < |mine|
    ensures CountAtMost(mine + dropped, mine[i], le) >= i + 1
  {
    assert mine + dropped == mine[..i + 1] + (mine[i + 1..] + dropped);
    CountOfConcat(mine[..i + 1], mine[i + 1..] + dropped, mine[i], le);
    CountWhenAll(mine[..i + 1], mine[i], le);
  }

  lemma CountStops<T(!new)>(other: seq<T>, dropped: seq<T>, le: (T, T) -> bool, i: nat, x: T)
    requires TotalPreorder(le) && Sorted(other, le) && AllAtMost(other, dropped, le)
    requires i < |other| && !le(other[i], x)
    ensures CountAtMost(other + dropped, x, le) <= i
  {
    var tail := other[i..] + dropped;
    assert other + dropped == other[..i] + tail;
    CountOfConcat(other[..i], tail, x, le);
    forall j | 0 <= j < |tail| ensures !le(tail[j], x) {
      assert le(other[i], tail[j]) by {
        assert other[i] in other;
        if j >= |other| - i {
          assert tail[j] in dropped;
        }
      }
    }
    CountWhenNone(tail, x, le);
  }

  /** At every place, the other selection has nothing worse. */
  lemma NeverWorse<T(!new)>(mine: seq<T>, other: seq<T>, all: seq<T>, again: seq<T>, k: nat, le: (T, T) -> bool, i: nat)
    requires TotalPreorder(le) && Rearranged(all, again)
    requires IsTop(mine, all, k, le) && IsTop(other, again, k, le) && i < |mine| && i < |other|
    ensures le(other[i], mine[i])
  {
    var d :| Splits(mine, d, all, k, le);
    var e :| Splits(other, e, again, k, le);
    CountIgnoresOrder(mine + d, other + e, mine[i], le);
    CountReaches(mine, d, le, i);
    if !le(other[i], mine[i]) {
      CountStops(other, e, le, i, mine[i]);
    }
  }

  /** Two selections of the best `k` of the same collection, in any order, agree place by place up to ties. */
  lemma TopIsUnique<T(!new)>(mine: seq<T>, other: seq<T>, all: seq<T>, again: seq<T>, k: nat, le: (T, T) -> bool)
    requires TotalPreorder(le) && Rearranged(all, again)
    requires IsTop(mine, all, k, le) && IsTop(other, again, k, le)
    ensures |mine| == |other|
    ensures forall i :: 0 <= i < |mine| ==> le(mine[i], other[i]) && le(other[i], mine[i])
  {
    SameSize(all, again);
    forall i | 0 <= i < |mine| ensures le(mine[i], other[i]) && le(other[i], mine[i]) {
      NeverWorse(mine, other, all, again, k, le, i);
      NeverWorse(other, mine, again, all, k, le, i);
    }
  }

  // ---------- Stages ----------

  /**
   If a later pick came after something dropped earlier, the later stage dropped
   something that comes no later than that.
   */
  lemma LaterStageDropsBelow<T(!new)>(first: seq<T>, dropped: seq<T>, all: seq<T>, more: seq<T>, top: seq<T>,
                                      rest: seq<T>, k: nat, le: (T, T) -> bool, t: T, d: T)
    requires Splits(first, dropped, all, k, le) && Splits(top, rest, first + more, k, le)
    requires t in top && d in dropped && !le(t, d)
    ensures exists j :: 0 <= j < |rest| && le(rest[j], d)
  {
    SameSize(first + dropped, all);
    assert |first| == k == |top|;
    CountIgnoresOrder(top + rest, first + more, d, le);
    CountOfConcat(first, more, d, le);
    CountWhenAll(first, d, le);
    CountOfConcat(top, rest, d, le);
    var i :| 0 <= i < |top| && top[i] == t;
    CountMisses(top, i, d, le);
    if forall j :: 0 <= j < |rest| ==> !le(rest[j], d) {
      CountWhenNone(rest, d, le);
    }
  }

  lemma StagedNeverWorse<T(!new)>(first: seq<T>, dropped: seq<T>, all: seq<T>, more: seq<T>, top: seq<T>, rest: seq<T>,
                                  k: nat, le: (T, T) -> bool, t: T, d: T)
    requires TotalPreorder(le)
    requires Splits(first, dropped, all, k, le) && Splits(top, rest, first + more, k, le)
    requires t in top && d in dropped
    ensures le(t, d)
  {
    if !le(t, d) {
      LaterStageDropsBelow(first, dropped, all, more, top, rest, k, le, t, d);
    }
  }

  /** Taking the best of a part first loses nothing: top-k(top-k(A) + B) is top-k(A + B). */
  lemma TopInStages<T(!new)>(first: seq<T>, all: seq<T>, more: seq<T>, top: seq<T>, k: nat, le: (T, T) -> bool)
    requires TotalPreorder(le)
    requires IsTop(first, all, k, le) && IsTop(top, first + more, k, le)
    ensures IsTop(top, all + more, k, le)
  {
    var dropped :| Splits(first, dropped, all, k, le);
    var rest :| Splits(top, rest, first + more, k, le);
    SameSize(first + dropped, all);
    forall t, d | t in top && d in rest + dropped ensures le(t, d) {
      if d in dropped {
        StagedNeverWorse(first, dropped, all, more, top, rest, k, le, t, d);
      }
    }
    assert multiset(top + (rest + dropped)) == multiset(top + rest) + multiset(dropped);
    assert multiset(first + more) == multiset(first) + multiset(more);
    assert multiset(first + dropped) == multiset(first) + multiset(dropped);
    assert multiset(all + more) == multiset(all) + multiset(more);
    assert Splits(top, rest + dropped, all + more, k, le);
  }

  lemma TopIgnoresOrder<T(!new)>(top: seq<T>, all: seq<T>, again: seq<T>, k: nat, le: (T, T) -> bool)
    requires IsTop(top, all, k, le) && Rearranged(all, again)
    ensures IsTop(top, again, k, le)
  {
    SameSize(all, again);
    var dropped :| Splits(top, dropped, all, k, le);
    assert Splits(top, dropped, again, k, le);
  }

  // ---------- Sorting ----------

  function Insert<T>(x: T, sorted: seq<T>, le: (T, T) -> bool): seq<T>
  {
    if sorted == [] || le(x, sorted[0]) then [x] + sorted else [sorted[0]] + Insert(x, sorted[1..], le)
  }

  /** The engine's stable sort: ties keep their order. */
  function Sort<T>(s: seq<T>, le: (T, T) -> bool): seq<T>
  {
    if s == [] then [] else Insert(s[0], Sort(s[1..], le), le)
  }

  lemma {:induction false} InsertAdds<T(!new)>(x: T, sorted: seq<T>, le: (T, T) -> bool)
    ensures multiset(Insert(x, sorted, le)) == multiset(sorted) + multiset{x}
  {
    if sorted != [] && !le(x, sorted[0]) {
      InsertAdds(x, sorted[1..], le);
      assert sorted == [sorted[0]] + sorted[1..];
    }
  }

  lemma SortedFromHead<T(!new)>(head: T, tail: seq<T>, le: (T, T) -> bool)
    requires Sorted(tail, le) && forall y :: y in tail ==> le(head, y)
    ensures Sorted([head] + tail, le)
  {
  }

  lemma {:induction false} InsertKeepsSorted<T(!new)>(x: T, sorted: seq<T>, le: (T, T) -> bool)
    requires TotalPreorder(le) && Sorted(sorted, le)
    ensures Sorted(Insert(x, sorted, le), le)
    ensures multiset(Insert(x, sorted, le)) == multiset(sorted) + multiset{x}
  {
    InsertAdds(x, sorted, le);
    if sorted == [] {
    } else if le(x, sorted[0]) {
      forall y | y in sorted ensures le(x, y) {
        var i :| 0 <= i < |sorted| && sorted[i] == y;
        assert i == 0 || le(sorted[0], y);
      }
      SortedFromHead(x, sorted, le);
    } else {
      InsertKeepsSorted(x, sorted[1..], le);
      var tail := Insert(x, sorted[1..], le);
      forall y | y in tail ensures le(sorted[0], y) {
        assert y in multiset(tail);
        assert y == x || y in sorted[1..];
      }
      SortedFromHead(sorted[0], tail, le);
    }
  }

  lemma {:induction false} SortSorts<T(!new)>(s: seq<T>, le: (T, T) -> bool)
    requires TotalPreorder(le)
    ensures Sorted(Sort(s, le), le) && Rearranged(Sort(s, le), s)
  {
    if s != [] {
      SortSorts(s[1..], le);
      InsertKeepsSorted(s[0], Sort(s[1..], le), le);
      assert s == [s[0]] + s[1..];
    }
  }

  /** The simple form: sort everything, then keep the first `k`. */
  function SortThenTake<T>(all: seq<T>, k: nat, le: (T, T) -> bool): seq<T>
  {
    var sorted := Sort(all, le);
    sorted[..Min(k, |sorted|)]
  }

  lemma SortThenTakeIsTop<T(!new)>(all: seq<T>, k: nat, le: (T, T) -> bool)
    requires TotalPreorder(le)
    ensures IsTop(SortThenTake(all, k, le), all, k, le)
  {
    SortSorts(all, le);
    var sorted := Sort(all, le);
    SameSize(sorted, all);
    var n := Min(k, |sorted|);
    assert sorted[..n] + sorted[n..] == sorted;
    assert Splits(sorted[..n], sorted[n..], all, k, le);
  }
}

/**
 `restoreLegacyCopies`: several keys of the shared `localStorage` written one by
 one, and undone one by one when a write fails, while other tabs may write the
 same storage between any two operations.

 What the other tabs wrote is recorded as one batch before each operation of
 ours. The loops compute functions of those batches, and the laws about the
 functions say what is left under every key.
 */
module LegacyCopies {
  import opened Basics

  type Items = map<Text, Text>

  datatype Copy = Copy(key: Text, value: Text)

  datatype Report = Saved | Conflict | NotSaved | RollbackFailed

  function ItemAt(items: Items, key: Text): Option<Text>
  {
    if key in items then Some(items[key]) else None
  }

  function Put(items: Items, key: Text, value: Option<Text>): Items
  {
    if value.Some? then items[key := value.value] else items - {key}
  }

  predicate DistinctKeys(copies: seq<Copy>)
  {
    forall i, j :: 0 <= i < j < |copies| ==> copies[i].key != copies[j].key
  }

  // ---------- Other tabs ----------

  /** What other tabs left under the keys they wrote between two of our operations; `None` when removed. */
  type Batch = map<Text, Option<Text>>

  function Disturbed(items: Items, batch: Batch): Items
  {
    (map key | key in items && key !in batch :: items[key]) + map key | key in batch && batch[key].Some? ::
        batch[key].value
  }

  lemma DisturbedAt(items: Items, batch: Batch, key: Text)
    ensures ItemAt(Disturbed(items, batch), key) == if key in batch then batch[key] else ItemAt(items, key)
  {
  }

  /** What a key holding `value` holds after these batches. */
  function Overlay(value: Option<Text>, batches: seq<Batch>, key: Text): Option<Text>
  {
    if batches == [] then value
    else if key in batches[|batches| - 1] then batches[|batches| - 1][key]
    else Overlay(value, batches[..|batches| - 1], key)
  }

  predicate Touched(batches: seq<Batch>, key: Text)
  {
    exists i :: 0 <= i < |batches| && key in batches[i]
  }

  lemma {:induction false} OverlayUntouched(value: Option<Text>, batches: seq<Batch>, key: Text)
    requires !Touched(batches, key)
    ensures Overlay(value, batches, key) == value
  {
    if batches != [] {
      var n := |batches| - 1;
      assert forall i :: 0 <= i < n ==> batches[..n][i] == batches[i];
      OverlayUntouched(value, batches[..n], key);
    }
  }

  lemma {:induction false} OverlayConcat(value: Option<Text>, a: seq<Batch>, b: seq<Batch>, key: Text)
    ensures Overlay(value, a + b, key) == Overlay(Overlay(value, a, key), b, key)
    decreases |b|
  {
    if b == [] {
      assert a + b == a;
    } else {
      var n := |b| - 1;
      assert (a + b)[..|a + b| - 1] == a + b[..n];
      OverlayConcat(value, a, b[..n], key);
    }
  }

  /** One more batch. */
  lemma OverlayNext(value: Option<Text>, batches: seq<Batch>, n: nat, key: Text)
    requires n < |batches|
    ensures Overlay(value, batches[..n + 1], key) == if key in batches[n] then batches[n][key]
        else Overlay(value, batches[..n], key)
  {
    assert batches[..n + 1][..n] == batches[..n];
  }

  /** Storage every tab writes; `batches` records what the others wrote before each operation of ours. */
  class LegacyStorage {
    var items: Items
    ghost var batches: seq<Batch>

    constructor (items: Items)
      ensures this.items == items && batches == []
    {
      this.items, batches := items, [];
    }

    /** Other tabs' turn. */
    method OthersWrite()
      modifies this
      ensures |batches| == |old(batches)| + 1 && batches[..|old(batches)|] == old(batches)
      ensures items == Disturbed(old(items), batches[|old(batches)|])
    {
      assert Disturbed(items, map[]) == items;
      batches := batches + [map[]];
    }

    function GetItem(key: Text): Option<Text>
      reads this
    {
      ItemAt(items, key)
    }

    /** `setItem` or `removeItem`; a write may be refused, as when the origin is out of space. */
    method Write(key: Text, value: Option<Text>) returns (ok: bool)
      modifies this`items
      ensures items == if ok then Put(old(items), key, value) else old(items)
    {
      ok := *;
      if ok {
        items := Put(items, key, value);
      }
    }
  }

  // ---------- What the two loops compute ----------

  /** The copies written in order, other tabs writing one batch before each. */
  function Written(items: Items, copies: seq<Copy>, batches: seq<Batch>): Items
    requires |batches| == |copies|
  {
    if copies == [] then items
    else
      var n := |copies| - 1;
      Put(Disturbed(Written(items, copies[..n], batches[..n]), batches[n]), copies[n].key, Some(copies[n].value))
  }

  /**
   The last `k` applied copies looked at, last first: a key still holding what was
   written goes back to what it held before, any other is left as it is. Beside
   the items, the copies that were found changed.
   */
  function Undone(items: Items, applied: seq<Copy>, k: nat, before: Items, batches: seq<Batch>): (Items, set<nat>)
    requires k <= |applied| && k <= |batches|
  {
    if k == 0 then (items, {})
    else
      var (earlier, changed) := Undone(items, applied, k - 1, before, batches);
      var now, copy := Disturbed(earlier, batches[k - 1]), applied[|applied| - k];
      if ItemAt(now, copy.key) != Some(copy.value) then (now, changed + {|applied| - k})
      else (Put(now, copy.key, ItemAt(before, copy.key)), changed)
  }

  // ---------- Distinct keys ----------

  ghost predicate Applied(applied: seq<Copy>, key: Text)
  {
    exists i :: 0 <= i < |applied| && applied[i].key == key
  }

  /** One more write, key by key. */
  lemma OneWrite(items: Items, copies: seq<Copy>, batches: seq<Batch>, key: Text)
    requires |batches| == |copies| > 0
    ensures var n := |copies| - 1;
      ItemAt(Written(items, copies, batches), key) ==
        if key == copies[n].key then Some(copies[n].value)
        else if key in batches[n] then batches[n][key] else ItemAt(Written(items, copies[..n], batches[..n]), key)
  {
    hide Disturbed, Put, ItemAt;
    var n := |copies| - 1;
    var earlier := Written(items, copies[..n], batches[..n]);
    DisturbedAt(earlier, batches[n], key);
    PutAt(Disturbed(earlier, batches[n]), copies[n].key, Some(copies[n].value), key);
  }

  lemma {:induction false} WrittenElsewhere(items: Items, copies: seq<Copy>, batches: seq<Batch>, key: Text)
    requires |batches| == |copies| && !Applied(copies, key)
    ensures ItemAt(Written(items, copies, batches), key) == Overlay(ItemAt(items, key), batches, key)
  {
    if copies != [] {
      var n := |copies| - 1;
      assert forall i :: 0 <= i < n ==> copies[..n][i] == copies[i];
      WrittenElsewhere(items, copies[..n], batches[..n], key);
      OneWrite(items, copies, batches, key);
    }
  }

  lemma {:induction false} WrittenAt(items: Items, copies: seq<Copy>, batches: seq<Batch>, i: nat)
    requires |batches| == |copies| && i < |copies| && DistinctKeys(copies)
    ensures ItemAt(Written(items, copies, batches), copies[i].key)
        == Overlay(Some(copies[i].value), batches[i + 1..], copies[i].key)
  {
    hide Written, ItemAt, Overlay;
    var n, rest, own := |copies| - 1, batches[i + 1..], Some(copies[i].value);
    OneWrite(items, copies, batches, copies[i].key);
    if i < n {
      WrittenAt(items, copies[..n], batches[..n], i);
      OverlayNext(own, rest, n - i - 1, copies[i].key);
      assert rest[..n - i - 1] == batches[..n][i + 1..] && rest[..n - i] == rest;
    } else {
      OverlayOfNothing(own, rest, copies[i].key);
    }
  }

  /** What the look at copy `j` finds, `s` looks into the undo. */
  function FoundBy(items: Items, copy: Copy, s: nat, batches: seq<Batch>): Option<Text>
    requires s <= |batches|
  {
    Overlay(ItemAt(items, copy.key), batches[..s], copy.key)
  }

  lemma PutAt(items: Items, written: Text, value: Option<Text>, key: Text)
    ensures ItemAt(Put(items, written, value), key) == if key == written then value else ItemAt(items, key)
  {
  }

  /** One more look, key by key. */
  lemma OneLook(items: Items, applied: seq<Copy>, k: nat, before: Items, batches: seq<Batch>, key: Text)
    requires 0 < k <= |applied| && k <= |batches|
    ensures var (earlier, changed), (now, all) := Undone(items, applied, k - 1, before, batches),
        Undone(items, applied, k, before, batches);
      var batch, copy := batches[k - 1], applied[|applied| - k];
      var found := if copy.key in batch then batch[copy.key] else ItemAt(earlier, copy.key);
      && (key == copy.key ==> ItemAt(now, key) == if found == Some(copy.value) then ItemAt(before, key) else found)
      && (key != copy.key ==> ItemAt(now, key) == if key in batch then batch[key] else ItemAt(earlier, key))
      && all == (if found == Some(copy.value) then changed else changed + {|applied| - k})
  {
    hide Disturbed, Put, ItemAt;
    var earlier, copy := Undone(items, applied, k - 1, before, batches).0, applied[|applied| - k];
    var now := Disturbed(earlier, batches[k - 1]);
    DisturbedAt(earlier, batches[k - 1], key);
    DisturbedAt(earlier, batches[k - 1], copy.key);
    PutAt(now, copy.key, ItemAt(before, copy.key), key);
  }

  /** Keys not looked at yet hold what other tabs left. */
  lemma {:induction false} UndoneElsewhere(items: Items, applied: seq<Copy>, k: nat, before: Items,
                                           batches: seq<Batch>, key: Text)
    requires k <= |applied| && k <= |batches|
    requires forall j :: |applied| - k <= j < |applied| ==> applied[j].key != key
    ensures ItemAt(Undone(items, applied, k, before, batches).0, key) == Overlay(ItemAt(items, key), batches[..k], key)
    decreases k
  {
    hide Undone, ItemAt;
    if k == 0 {
      NothingUndone(items, applied, before, batches, key);
    } else {
      UndoneElsewhere(items, applied, k - 1, before, batches, key);
      OneLook(items, applied, k, before, batches, key);
      OverlayNext(ItemAt(items, key), batches, k - 1, key);
    }
  }

  /**
   A key looked at was put back when it still held what was written, and kept
   otherwise; later batches apply on top.
   */
  lemma {:induction false} UndoneAt(items: Items, applied: seq<Copy>, k: nat, before: Items, batches: seq<Batch>,
                                    j: nat)
    requires k <= |applied| && k <= |batches| && DistinctKeys(applied) && |applied| - k <= j < |applied|
    ensures var copy, s := applied[j], |applied| - j;
      var found := FoundBy(items, copy, s, batches);
      var (now, changed) := Undone(items, applied, k, before, batches);
      && ItemAt(now, copy.key)
          == Overlay(if found == Some(copy.value) then ItemAt(before, copy.key) else found, batches[s..k], copy.key)
      && (j in changed <==> found != Some(copy.value))
    decreases k
  {
    hide Undone, Overlay, ItemAt;
    var copy, s := applied[j], |applied| - j;
    var found := FoundBy(items, copy, s, batches);
    var kept := if found == Some(copy.value) then ItemAt(before, copy.key) else found;
    OneLook(items, applied, k, before, batches, copy.key);
    if s == k {
      UndoneElsewhere(items, applied, k - 1, before, batches, copy.key);
      OverlayNext(ItemAt(items, copy.key), batches, k - 1, copy.key);
      ChangedAreSeen(items, applied, k - 1, before, batches);
      OverlayOfNothing(kept, batches[s..k], copy.key);
    } else {
      UndoneAt(items, applied, k - 1, before, batches, j);
      var rest := batches[s..k];
      OverlayNext(kept, rest, k - 1 - s, copy.key);
      assert rest[..k - 1 - s] == batches[s..k - 1] && rest[..k - s] == rest;
    }
  }

  lemma OverlayOfNothing(value: Option<Text>, batches: seq<Batch>, key: Text)
    requires batches == []
    ensures Overlay(value, batches, key) == value
  {
  }

  lemma {:induction false} ChangedAreSeen(items: Items, applied: seq<Copy>, k: nat, before: Items, batches: seq<Batch>)
    requires k <= |applied| && k <= |batches|
    ensures forall j :: j in Undone(items, applied, k, before, batches).1 ==> |applied| - k <= j < |applied|
    decreases k
  {
    if k > 0 {
      ChangedAreSeen(items, applied, k - 1, before, batches);
    }
  }

  // ---------- A failed call ----------

  /** What is in storage when write `n` has been refused: `n` copies written, and one more batch. */
  function AtFailure(before: Items, copies: seq<Copy>, n: nat, batches: seq<Batch>): Items
    requires n <= |copies| && n < |batches|
  {
    Disturbed(Written(before, copies[..n], batches[..n]), batches[n])
  }

  /**
   And when all `n` of them have been looked at again: the batches of the whole
   call, and the copies found changed.
   */
  function AfterUndo(before: Items, copies: seq<Copy>, n: nat, batches: seq<Batch>): (Items, set<nat>)
    requires n <= |copies| && |batches| == 2 * n + 1
  {
    Undone(AtFailure(before, copies, n, batches), copies[..n], n, before, batches[n + 1..])
  }

  /** What the undo finds under copy `i`: our value, unless another tab wrote the key since we did. */
  function Found(copies: seq<Copy>, n: nat, batches: seq<Batch>, i: nat): Option<Text>
    requires i < n <= |copies| && |batches| == 2 * n + 1
  {
    Overlay(Some(copies[i].value), batches[i + 1..2 * n - i + 1], copies[i].key)
  }

  lemma FoundSince(copies: seq<Copy>, n: nat, batches: seq<Batch>, i: nat)
    requires i < n <= |copies| && |batches| == 2 * n + 1
    ensures Found(copies, n, batches, i) == Overlay(Some(copies[i].value), batches[i + 1..2 * n - i + 1], copies[i].key)
  {
  }

  lemma FoundIs(before: Items, copies: seq<Copy>, n: nat, batches: seq<Batch>, i: nat)
    requires i < n <= |copies| && |batches| == 2 * n + 1 && DistinctKeys(copies)
    ensures FoundBy(AtFailure(before, copies, n, batches), copies[i], n - i, batches[n + 1..])
        == Found(copies, n, batches, i)
  {
    var key, own := copies[i].key, Some(copies[i].value);
    var written := Written(before, copies[..n], batches[..n]);
    WrittenAt(before, copies[..n], batches[..n], i);
    DisturbedAt(written, batches[n], key);
    var first, rest := batches[i + 1..n + 1], batches[n + 1..][..n - i];
    assert batches[..n][i + 1..] == first[..n - i - 1];
    assert ItemAt(AtFailure(before, copies, n, batches), key) == Overlay(own, first, key);
    OverlayConcat(own, first, rest, key);
    assert batches[i + 1..2 * n - i + 1] == first + rest;
  }

  /**
   A failed call with distinct keys, key by key. A written key that still held our
   value when it was looked at is back to what it held before the call; one that
   another tab had changed keeps that change; and what other tabs wrote after the
   look stands in either case. The conflict is reported exactly when some key was
   found changed. Keys that were not written hold what other tabs left.
   */
  lemma FailedCallRestoresOrKeeps(before: Items, copies: seq<Copy>, n: nat, batches: seq<Batch>)
    requires n <= |copies| && |batches| == 2 * n + 1 && DistinctKeys(copies)
    ensures var (now, changed) := AfterUndo(before, copies, n, batches);
      && (forall i :: 0 <= i < n ==>
            ItemAt(now, copies[i].key) == Overlay(
              if Found(copies, n, batches, i) == Some(copies[i].value) then ItemAt(before, copies[i].key)
                  else Found(copies, n, batches, i),
              batches[2 * n - i + 1..], copies[i].key))
      && (changed != {} <==> exists i :: 0 <= i < n && Found(copies, n, batches, i) != Some(copies[i].value))
      && (forall key :: !Applied(copies[..n], key) ==> ItemAt(now, key) == Overlay(ItemAt(before, key), batches, key))
  {
    hide Undone, Written, FoundBy, Overlay, Found;
    var start, applied, looks := AtFailure(before, copies, n, batches), copies[..n], batches[n + 1..];
    var (now, changed) := AfterUndo(before, copies, n, batches);
    ChangedAreSeen(start, applied, n, before, looks);
    forall i | 0 <= i < n
      ensures ItemAt(now, copies[i].key) == Overlay(
                if Found(copies, n, batches, i) == Some(copies[i].value) then ItemAt(before, copies[i].key)
                    else Found(copies, n, batches, i),
                batches[2 * n - i + 1..], copies[i].key)
      ensures i in changed <==> Found(copies, n, batches, i) != Some(copies[i].value)
    {
      FoundIs(before, copies, n, batches, i);
      UndoneAt(start, applied, n, before, looks, i);
      assert looks[n - i..n] == batches[2 * n - i + 1..];
    }
    if changed != {} {
      var i :| i in changed;
      assert Found(copies, n, batches, i) != Some(copies[i].value);
    }
    forall key | !Applied(applied, key) ensures ItemAt(now, key) == Overlay(ItemAt(before, key), batches, key) {
      UnwrittenIsLeft(before, copies, n, batches, key);
    }
  }

  lemma UnwrittenIsLeft(before: Items, copies: seq<Copy>, n: nat, batches: seq<Batch>, key: Text)
    requires n <= |copies| && |batches| == 2 * n + 1 && !Applied(copies[..n], key)
    ensures ItemAt(AfterUndo(before, copies, n, batches).0, key) == Overlay(ItemAt(before, key), batches, key)
  {
    hide Undone, Written;
    var start := AtFailure(before, copies, n, batches);
    UndoneElsewhere(start, copies[..n], n, before, batches[n + 1..], key);
    WrittenElsewhere(before, copies[..n], batches[..n], key);
    DisturbedAt(Written(before, copies[..n], batches[..n]), batches[n], key);
    OverlayNext(ItemAt(before, key), batches, n, key);
    OverlayConcat(ItemAt(before, key), batches[..n + 1], batches[n + 1..], key);
    assert batches[n + 1..][..n] == batches[n + 1..] && batches[..n + 1] + batches[n + 1..] == batches;
  }

  /**
   In particular: a key nobody else wrote after us is restored; and when the undo
   finds another value than ours, the last value another tab wrote is what stays.
   */
  lemma ForeignChangesAreKept(before: Items, copies: seq<Copy>, n: nat, batches: seq<Batch>, i: nat)
    requires i < n <= |copies| && |batches| == 2 * n + 1 && DistinctKeys(copies)
    ensures var key, now := copies[i].key, AfterUndo(before, copies, n, batches).0;
      && (!Touched(batches[i + 1..], key) ==> ItemAt(now, key) == ItemAt(before, key))
      && (Found(copies, n, batches, i) != Some(copies[i].value) ==>
            ItemAt(now, key) == Overlay(Some(copies[i].value), batches[i + 1..], key) && Touched(batches[i + 1..], key))
  {
    hide AfterUndo, ItemAt, Found, Overlay;
    var key, own := copies[i].key, Some(copies[i].value);
    var until, after := batches[i + 1..2 * n - i + 1], batches[2 * n - i + 1..];
    FailedCallRestoresOrKeeps(before, copies, n, batches);
    assert Found(copies, n, batches, i) == Overlay(own, until, key) by { FoundSince(copies, n, batches, i); }
    assert batches[i + 1..] == until + after;
    OverlayConcat(own, until, after, key);
    if !Touched(batches[i + 1..], key) {
      assert forall j :: 0 <= j < |until| ==> until[j] == batches[i + 1..][j];
      assert forall j :: 0 <= j < |after| ==> after[j] == batches[i + 1..][|until| + j];
      OverlayUntouched(own, until, key);
      OverlayUntouched(ItemAt(before, key), after, key);
    }
  }

  /**
   The boundary: another tab that writes the very text we wrote is not noticed.
   Its write is undone with ours, and no conflict is reported.
   */
  lemma EqualChangeIsUndone(key: Text, value: Text, other: Copy)
    requires other.key != key
    ensures var copies, batches := [Copy(key, value), other], [map[], map[key := Some(value)], map[]];
      && Touched(batches[1..], key)
      && AfterUndo(map[], copies, 1, batches) == (map[], {})
  {
    var copies: seq<Copy> := [Copy(key, value), other];
    var batches: seq<Batch> := [map[], map[key := Some(value)], map[]];
    assert batches[1..][0] == map[key := Some(value)];
    var own: seq<Copy> := [Copy(key, value)];
    assert copies[..1] == own && batches[2..] == [map[]];
    var start := AtFailure(map[], copies, 1, batches);
    assert ItemAt(start, key) == Some(value) by {
      DisturbedAt(Written(map[], copies[..1], batches[..1]), batches[1], key);
    }
    assert Undone(start, own, 0, map[], [map[]]) == (start, {});
    OneLook(start, own, 1, map[], [map[]], key);
    forall k ensures ItemAt(AfterUndo(map[], copies, 1, batches).0, k) == ItemAt(map[], k) {
      OneLook(start, own, 1, map[], [map[]], k);
      if k != key {
        DisturbedAt(Written(map[], copies[..1], batches[..1]), batches[1], k);
        OneWrite(map[], copies[..1], batches[..1], k);
        assert Written(map[], copies[..1][..0], batches[..1][..0]) == map[];
      }
    }
    SameItems(AfterUndo(map[], copies, 1, batches).0, map[]);
  }

  // ---------- One key written twice ----------

  predicate Calm(batches: seq<Batch>)
  {
    forall i :: 0 <= i < |batches| ==> batches[i] == map[]
  }

  lemma Undisturbed(items: Items)
    ensures Disturbed(items, map[]) == items
  {
  }

  /** A later copy has the same key. */
  ghost predicate Superseded(applied: seq<Copy>, i: nat)
    requires i < |applied|
  {
    exists j :: i < j < |applied| && applied[j].key == applied[i].key
  }

  function LastValue(copies: seq<Copy>, key: Text): Option<Text>
  {
    if copies == [] then None
    else if copies[|copies| - 1].key == key then Some(copies[|copies| - 1].value)
    else LastValue(copies[..|copies| - 1], key)
  }

  lemma {:induction false} LastValueIs(copies: seq<Copy>, i: nat)
    requires i < |copies| && !Superseded(copies, i)
    ensures LastValue(copies, copies[i].key) == Some(copies[i].value)
  {
    var n := |copies| - 1;
    if i < n {
      assert copies[n].key != copies[i].key;
      assert forall j :: 0 <= j < n ==> copies[..n][j] == copies[j];
      LastValueIs(copies[..n], i);
    }
  }

  lemma {:induction false} LastValueOfOther(copies: seq<Copy>, key: Text)
    requires !AppliedFrom(copies, 0, key)
    ensures LastValue(copies, key) == None
  {
    if copies != [] {
      var n := |copies| - 1;
      assert copies[n].key != key;
      assert forall j :: 0 <= j < n ==> copies[..n][j] == copies[j];
      LastValueOfOther(copies[..n], key);
    }
  }

  lemma {:induction false} CalmlyWritten(before: Items, copies: seq<Copy>, batches: seq<Batch>, key: Text)
    requires |batches| == |copies| && Calm(batches)
    ensures ItemAt(Written(before, copies, batches), key) ==
      if LastValue(copies, key).Some? then LastValue(copies, key) else ItemAt(before, key)
  {
    if copies != [] {
      var n := |copies| - 1;
      CalmlyWritten(before, copies[..n], batches[..n], key);
      OneWrite(before, copies, batches, key);
    }
  }

  ghost predicate AppliedFrom(applied: seq<Copy>, m: nat, key: Text)
  {
    exists j :: m <= j < |applied| && applied[j].key == key
  }

  /** What was written is there to be found. */
  ghost predicate HoldsWritten(applied: seq<Copy>, written: Items)
  {
    forall i :: 0 <= i < |applied| && !Superseded(applied, i) ==>
      ItemAt(written, applied[i].key) == Some(applied[i].value)
  }

  /** The first look at a key finds what was written. */
  lemma FirstLookFindsWritten(applied: seq<Copy>, written: Items, m: nat)
    requires m < |applied| && HoldsWritten(applied, written)
    ensures AppliedFrom(applied, m + 1, applied[m].key) <==> Superseded(applied, m)
    ensures !Superseded(applied, m) ==> ItemAt(written, applied[m].key) == Some(applied[m].value)
  {
  }

  lemma AppliedFromNext(applied: seq<Copy>, m: nat, key: Text)
    requires m < |applied|
    ensures AppliedFrom(applied, m, key) <==> AppliedFrom(applied, m + 1, key) || applied[m].key == key
  {
  }

  /** One more look into a calm undo, key by key. */
  lemma OneCalmLook(items: Items, applied: seq<Copy>, k: nat, before: Items, batches: seq<Batch>, key: Text)
    requires 0 < k <= |applied| && k <= |batches| && Calm(batches)
    ensures var (earlier, changed), (now, all) := Undone(items, applied, k - 1, before, batches),
        Undone(items, applied, k, before, batches);
      var copy := applied[|applied| - k];
      var found := ItemAt(earlier, copy.key);
      && ItemAt(now, key)
          == (if key == copy.key && found == Some(copy.value) then ItemAt(before, key) else ItemAt(earlier, key))
      && all == (if found == Some(copy.value) then changed else changed + {|applied| - k})
  {
    hide Undone, ItemAt;
    OneLook(items, applied, k, before, batches, key);
  }

  lemma NothingUndone(items: Items, applied: seq<Copy>, before: Items, batches: seq<Batch>, key: Text)
    ensures Undone(items, applied, 0, before, batches) == (items, {})
    ensures !AppliedFrom(applied, |applied|, key)
  {
  }

  /** `k` looks into a calm undo, a key looked at holds what it held before, and any other what was written. */
  lemma {:induction false} CalmlyUndone(before: Items, applied: seq<Copy>, written: Items, k: nat, batches: seq<Batch>,
                                        key: Text)
    requires k <= |applied| && k <= |batches| && Calm(batches) && HoldsWritten(applied, written)
    ensures ItemAt(Undone(written, applied, k, before, batches).0, key) ==
      if AppliedFrom(applied, |applied| - k, key) then ItemAt(before, key) else ItemAt(written, key)
    decreases k
  {
    hide Undone, ItemAt, AppliedFrom, Superseded, Calm, HoldsWritten;
    if k == 0 {
      NothingUndone(written, applied, before, batches, key);
    } else {
      var m := |applied| - k;
      CalmlyUndone(before, applied, written, k - 1, batches, key);
      OneCalmLook(written, applied, k, before, batches, key);
      AppliedFromNext(applied, m, key);
      FirstLookFindsWritten(applied, written, m);
    }
  }

  /** Copy `i` is looked at after its key was put back, and held something else before. */
  ghost predicate FalseAlarm(before: Items, applied: seq<Copy>, i: nat)
    requires i < |applied|
  {
    Superseded(applied, i) && ItemAt(before, applied[i].key) != Some(applied[i].value)
  }

  /** And the copies found changed are exactly those. */
  lemma {:induction false} CalmlyFound(before: Items, applied: seq<Copy>, written: Items, k: nat, batches: seq<Batch>,
                                       i: nat)
    requires k <= |applied| && k <= |batches| && Calm(batches) && HoldsWritten(applied, written) && i < |applied|
    ensures i in Undone(written, applied, k, before, batches).1 <==>
      |applied| - k <= i && FalseAlarm(before, applied, i)
    decreases k
  {
    hide Undone, ItemAt, AppliedFrom, Superseded, Calm, HoldsWritten;
    if k == 0 {
      NothingUndone(written, applied, before, batches, applied[i].key);
    } else {
      var m := |applied| - k;
      CalmlyFound(before, applied, written, k - 1, batches, i);
      CalmlyUndone(before, applied, written, k - 1, batches, applied[m].key);
      OneCalmLook(written, applied, k, before, batches, applied[m].key);
      FirstLookFindsWritten(applied, written, m);
    }
  }

  lemma SameItems(a: Items, b: Items)
    requires forall key :: ItemAt(a, key) == ItemAt(b, key)
    ensures a == b
  {
    forall key ensures key in a <==> key in b {
      assert ItemAt(a, key) == ItemAt(b, key);
    }
    forall key | key in a ensures a[key] == b[key] {
      assert ItemAt(a, key) == ItemAt(b, key);
    }
  }

  /**
   With nobody else writing, the undo always restores the storage, keys written
   twice included; it still reports a concurrent change exactly when one key was
   written twice and held something else before than an earlier of those writes.
   */
  lemma QuietUndoRestores(before: Items, copies: seq<Copy>, n: nat, batches: seq<Batch>)
    requires n <= |copies| && |batches| == 2 * n + 1 && Calm(batches)
    ensures AfterUndo(before, copies, n, batches).0 == before
    ensures AfterUndo(before, copies, n, batches).1 != {} <==>
      exists i :: 0 <= i < n && FalseAlarm(before, copies[..n], i)
  {
    hide Undone, Written, ItemAt;
    var applied, looks := copies[..n], batches[n + 1..];
    var written := Written(before, applied, batches[..n]);
    var (now, changed) := AfterUndo(before, copies, n, batches);
    Undisturbed(written);
    forall i | 0 <= i < n && !Superseded(applied, i) ensures ItemAt(written, applied[i].key) == Some(applied[i].value) {
      CalmlyWritten(before, applied, batches[..n], applied[i].key);
      LastValueIs(applied, i);
    }
    ChangedAreSeen(written, applied, n, before, looks);
    forall i | 0 <= i < n ensures i in changed <==> FalseAlarm(before, applied, i) {
      CalmlyFound(before, applied, written, n, looks, i);
    }
    forall key ensures ItemAt(now, key) == ItemAt(before, key) {
      CalmlyUndone(before, applied, written, n, looks, key);
      CalmlyWritten(before, applied, batches[..n], key);
      if !AppliedFrom(applied, 0, key) {
        LastValueOfOther(applied, key);
      }
    }
    SameItems(now, before);
    if changed != {} {
      var i :| i in changed;
      assert FalseAlarm(before, applied, i);
    }
  }

  /** Two collections under one key, a third that does not fit, and nobody else about: a conflict is reported. */
  lemma SharedKeyRaisesFalseAlarm(key: Text, first: Text, second: Text, third: Copy)
    ensures var copies := [Copy(key, first), Copy(key, second), third];
      AfterUndo(map[], copies, 2, seq(5, _ => map[])).1 != {}
  {
    var copies: seq<Copy> := [Copy(key, first), Copy(key, second), third];
    QuietUndoRestores(map[], copies, 2, seq(5, _ => map[]));
    assert copies[..2][1].key == copies[..2][0].key;
    assert FalseAlarm(map[], copies[..2], 0);
  }

  // ---------- The two loops ----------

  /** Each copy's key as the call found it. */
  predicate SnapshotOf(snapshot: map<Text, Option<Text>>, copies: seq<Copy>, items: Items)
  {
    && (forall i :: 0 <= i < |copies| ==> copies[i].key in snapshot)
    && forall key :: key in snapshot ==> snapshot[key] == ItemAt(items, key)
  }

  /** Writes the copies in order; `n` of them succeed, all when `ok`. `batches` is what other tabs wrote meanwhile. */
  method WriteCopies(storage: LegacyStorage, copies: seq<Copy>) returns (ok: bool, n: nat, ghost batches: seq<Batch>)
    modifies storage
    ensures n <= |copies| && (ok <==> n == |copies|) && |batches| == (if ok then n else n + 1)
    ensures storage.batches == old(storage.batches) + batches
    ensures storage.items == if ok then Written(old(storage.items), copies, batches)
        else AtFailure(old(storage.items), copies, n, batches)
  {
    n, batches := 0, [];
    while n < |copies|
      invariant n <= |copies| && |batches| == n && storage.batches == old(storage.batches) + batches
      invariant storage.items == Written(old(storage.items), copies[..n], batches)
    {
      assert copies[..n + 1][..n] == copies[..n];
      storage.OthersWrite();
      batches := batches + [storage.batches[|storage.batches| - 1]];
      assert batches[..n] + [batches[n]] == batches;
      ok := storage.Write(copies[n].key, Some(copies[n].value));
      if !ok {
        return;
      }
      n := n + 1;
    }
    assert copies[..|copies|] == copies;
    ok := true;
  }

  /**
   Undoes the applied copies, last first: all `k` of them, unless a write is
   refused. `concurrentChange` says whether one was found changed.
   */
  method UndoCopies(storage: LegacyStorage, applied: seq<Copy>, snapshot: map<Text, Option<Text>>, ghost before: Items)
    returns (ok: bool, concurrentChange: bool, ghost k: nat, ghost batches: seq<Batch>)
    requires SnapshotOf(snapshot, applied, before)
    modifies storage
    ensures k <= |applied| && (ok <==> k == |applied|) && |batches| == (if ok then k else k + 1)
    ensures storage.batches == old(storage.batches) + batches
    ensures var (now, changed) := Undone(old(storage.items), applied, k, before, batches);
      && storage.items == (if ok then now else Disturbed(now, batches[k]))
      && (concurrentChange <==> changed != {})
  {
    hide Disturbed, Put;
    var index := |applied|;
    concurrentChange, k, batches := false, 0, [];
    while index > 0
      invariant 0 <= index <= |applied| && k == |applied| - index == |batches|
          && storage.batches == old(storage.batches) + batches
      invariant var (now, changed) := Undone(old(storage.items), applied, k, before, batches);
        storage.items == now && (concurrentChange <==> changed != {})
    {
      index := index - 1;
      var copy := applied[index];
      ghost var sofar := batches;
      storage.OthersWrite();
      batches := batches + [storage.batches[|storage.batches| - 1]];
      UndoneIgnoresLater(old(storage.items), applied, k, before, sofar, batches);
      if storage.GetItem(copy.key) != Some(copy.value) {
        concurrentChange := true;
      } else {
        ok := storage.Write(copy.key, snapshot[copy.key]);
        if !ok {
          return;
        }
      }
      k := k + 1;
    }
    ok := true;
  }

  lemma {:induction false} UndoneIgnoresLater(items: Items, applied: seq<Copy>, k: nat, before: Items, a: seq<Batch>,
                                              b: seq<Batch>)
    requires k <= |applied| && k <= |a| && a <= b
    ensures Undone(items, applied, k, before, a) == Undone(items, applied, k, before, b)
    decreases k
  {
    if k > 0 {
      UndoneIgnoresLater(items, applied, k - 1, before, a, b);
    }
  }

  /** The call failed at write `n` and was undone. */
  ghost predicate UndoneCall(before: Items, after: Items, copies: seq<Copy>, n: nat, batches: seq<Batch>,
                             conflict: bool)
  {
    && n < |copies| && |batches| == 2 * n + 1
    && after == AfterUndo(before, copies, n, batches).0
    && (conflict <==> AfterUndo(before, copies, n, batches).1 != {})
  }

  /** The call failed at write `n`, and its undo was refused after `k` looks. */
  ghost predicate StuckCall(before: Items, after: Items, copies: seq<Copy>, n: nat, k: nat, batches: seq<Batch>)
  {
    && k < n < |copies| && |batches| == n + k + 2
    && var undone := Undone(AtFailure(before, copies, n, batches), copies[..n], k, before, batches[n + 1..]).0;
    after == Disturbed(undone, batches[n + k + 1])
  }

  /**
   The call as a whole. A saved call leaves the copies written in order; a failed
   one leaves what `AfterUndo` describes and reports a conflict exactly when it
   found a change; and when the undo itself is refused, the copies not yet looked
   at are left as they are.
   */
  method RestoreLegacyCopies(storage: LegacyStorage, copies: seq<Copy>)
    returns (report: Report, ghost n: nat, ghost k: nat, ghost batches: seq<Batch>)
    modifies storage
    ensures storage.batches == old(storage.batches) + batches
    ensures report == Saved ==> |batches| == |copies| && storage.items == Written(old(storage.items), copies, batches)
    ensures report == Conflict ==> UndoneCall(old(storage.items), storage.items, copies, n, batches, true)
    ensures report == NotSaved ==> UndoneCall(old(storage.items), storage.items, copies, n, batches, false)
    ensures report == RollbackFailed ==> StuckCall(old(storage.items), storage.items, copies, n, k, batches)
  {
    hide Undone, Written;
    ghost var before := storage.items;
    var snapshot := map i: int | 0 <= i < |copies| :: copies[i].key := storage.GetItem(copies[i].key);
    var ok, written;
    ok, written, batches := WriteCopies(storage, copies);
    n, k := written, 0;
    if ok {
      return Saved, n, k, batches;
    }
    ghost var writing := batches;
    var undone, concurrentChange;
    ghost var looks;
    undone, concurrentChange, k, looks := UndoCopies(storage, copies[..written], snapshot, before);
    batches := writing + looks;
    assert batches[n + 1..] == looks && batches[..n] == writing[..n] && batches[n] == writing[n];
    report := if !undone then RollbackFailed else if concurrentChange then Conflict else NotSaved;
  }
}

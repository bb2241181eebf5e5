/**
 * `buildPatternSelection` (app/VoodooTrackerX/VoodooTrackerXTests/VoodooTrackerXTests.swift):
 * the list of patterns the editor offers, built from a module's order table.
 * In-range order entries are de-duplicated in order of first use, entries
 * outside `0..<patternCount` are collected as invalid references, and the
 * offered list is either every pattern (show-all) or the used ones in
 * ascending order. Swift's `Int` is taken as unbounded.
 */
module PatternSelection {

  datatype Entry = Entry(patternIndex: int, isUsed: bool, rowCount: int)

  datatype Selection = Selection(entries: seq<Entry>, invalidReferencedPatterns: seq<int>)

  /** `safePatternCount`: a negative pattern count counts as none. */
  function SafeCount(patternCount: int): (n: nat)
    ensures patternCount >= 0 ==> n == patternCount
    ensures patternCount < 0 ==> n == 0
  {
    if patternCount < 0 then 0 else patternCount
  }

  /** The rows shown for pattern `p`: its row count raised to at least 1, or 64 when it has none. */
  function RowCountFor(rowCounts: seq<int>, p: nat): (rows: int)
    ensures rows >= 1
  {
    if p < |rowCounts| then (if rowCounts[p] < 1 then 1 else rowCounts[p]) else 64
  }

  /** The order entries that name no pattern, in order, duplicates kept. */
  function InvalidRefs(orders: seq<int>, count: nat): seq<int>
  {
    if |orders| == 0 then []
    else
      var rest := InvalidRefs(orders[..|orders| - 1], count);
      var p := orders[|orders| - 1];
      if 0 <= p < count then rest else rest + [p]
  }

  /** `usedUnique`: the in-range order entries, each kept at its first occurrence. */
  function UsedOrder(orders: seq<int>, count: nat): seq<int>
  {
    if |orders| == 0 then []
    else
      var used := UsedOrder(orders[..|orders| - 1], count);
      var p := orders[|orders| - 1];
      if 0 <= p < count && p !in used then used + [p] else used
  }

  predicate Ascending(s: seq<int>)
  {
    forall i, j :: 0 <= i < j < |s| ==> s[i] <= s[j]
  }

  predicate StrictlyAscending(s: seq<int>)
  {
    forall i, j :: 0 <= i < j < |s| ==> s[i] < s[j]
  }

  predicate Distinct(s: seq<int>)
  {
    forall i, j :: 0 <= i < j < |s| ==> s[i] != s[j]
  }

  /** Place `x` before the first larger element of `s`. */
  function Insert(x: int, s: seq<int>): seq<int>
  {
    if |s| == 0 then [x]
    else if x <= s[0] then [x] + s
    else [s[0]] + Insert(x, s[1..])
  }

  /** Inserting adds exactly one occurrence of `x`. */
  lemma {:induction false} InsertAddsOne(x: int, s: seq<int>)
    ensures multiset(Insert(x, s)) == multiset(s) + multiset{x}
  {
    if |s| > 0 && x > s[0] {
      assert s == [s[0]] + s[1..];
      InsertAddsOne(x, s[1..]);
    }
  }

  /** The elements after inserting are `x` and those of `s`. */
  lemma {:induction false} InsertElements(x: int, s: seq<int>)
    ensures forall y :: y in Insert(x, s) <==> y == x || y in s
  {
    if |s| > 0 && x > s[0] {
      assert s == [s[0]] + s[1..];
      InsertElements(x, s[1..]);
    }
  }

  /** Inserting into an ascending sequence keeps it ascending. */
  lemma {:induction false} InsertSorted(x: int, s: seq<int>)
    requires Ascending(s)
    ensures Ascending(Insert(x, s))
  {
    if |s| > 0 && x > s[0] {
      var t := s[1..];
      InsertSorted(x, t);
      InsertElements(x, t);
      var r := Insert(x, t);
      forall i | 0 <= i < |r|
        ensures s[0] <= r[i]
      {
        assert r[i] in r;
      }
    }
  }

  /** Swift's `sorted()` on integers, as an insertion sort. */
  function SortAscending(s: seq<int>): seq<int>
  {
    if |s| == 0 then [] else Insert(s[|s| - 1], SortAscending(s[..|s| - 1]))
  }

  /** `SortAscending` returns an ascending rearrangement of its input. */
  lemma {:induction false} SortAscendingSorts(s: seq<int>)
    ensures multiset(SortAscending(s)) == multiset(s)
    ensures Ascending(SortAscending(s))
  {
    if |s| > 0 {
      var prefix := s[..|s| - 1];
      SortAscendingSorts(prefix);
      InsertAddsOne(s[|s| - 1], SortAscending(prefix));
      InsertSorted(s[|s| - 1], SortAscending(prefix));
      assert s == prefix + [s[|s| - 1]];
    }
  }

  /** Sorting neither adds nor drops a value. */
  lemma SortKeepsElements(s: seq<int>)
    ensures forall x :: x in SortAscending(s) <==> x in s
  {
    SortAscendingSorts(s);
    forall x
      ensures x in SortAscending(s) <==> x in s
    {
      assert x in SortAscending(s) <==> x in multiset(SortAscending(s));
      assert x in s <==> x in multiset(s);
    }
  }

  /** Sorting keeps every element within the bounds its input keeps. */
  lemma SortedInRange(s: seq<int>, count: nat)
    requires forall i :: 0 <= i < |s| ==> 0 <= s[i] < count
    ensures forall i :: 0 <= i < |SortAscending(s)| ==> 0 <= SortAscending(s)[i] < count
  {
    var r := SortAscending(s);
    SortAscendingSorts(s);
    forall i | 0 <= i < |r|
      ensures 0 <= r[i] < count
    {
      assert r[i] in multiset(s);
    }
  }

  /** The show-all list: every pattern in order, marked used when the order table names it. */
  function AllEntries(orders: seq<int>, count: nat, rowCounts: seq<int>): seq<Entry>
  {
    seq(count, p requires 0 <= p < count => Entry(p, p in orders, RowCountFor(rowCounts, p)))
  }

  /** One used entry per index of `indices`, in that order. */
  function UsedEntries(indices: seq<int>, rowCounts: seq<int>): seq<Entry>
    requires forall i :: 0 <= i < |indices| ==> indices[i] >= 0
  {
    seq(|indices|, i requires 0 <= i < |indices| => Entry(indices[i], true, RowCountFor(rowCounts, indices[i])))
  }

  /** What `buildPatternSelection` returns. */
  function PatternSelection(orders: seq<int>, patternCount: int, rowCounts: seq<int>, showAll: bool): (sel: Selection)
    ensures forall i :: 0 <= i < |sel.entries| ==> 0 <= sel.entries[i].patternIndex < patternCount
    ensures |sel.entries| == 0 <==> patternCount <= 0
    ensures forall x :: x in sel.invalidReferencedPatterns ==> x in orders && !(0 <= x < patternCount)
  {
    var count := SafeCount(patternCount);
    var invalid := InvalidRefs(orders, count);
    InvalidRefsElements(orders, count);
    if showAll then Selection(AllEntries(orders, count, rowCounts), invalid)
    else
      var sorted := SortAscending(UsedOrder(orders, count));
      UsedOrderExact(orders, count);
      SortedInRange(UsedOrder(orders, count), count);
      var used := UsedEntries(sorted, rowCounts);
      if |used| == 0 && count > 0 then Selection([Entry(0, false, RowCountFor(rowCounts, 0))], invalid)
      else Selection(used, invalid)
  }

  /** A value is reported invalid exactly when the order table holds it and it names no pattern. */
  lemma {:induction false} InvalidRefsElements(orders: seq<int>, count: nat)
    ensures forall x :: x in InvalidRefs(orders, count) <==> x in orders && !(0 <= x < count)
  {
    if |orders| > 0 {
      var prefix := orders[..|orders| - 1];
      InvalidRefsElements(prefix, count);
      assert orders == prefix + [orders[|orders| - 1]];
    }
  }

  /** `usedUnique` has no duplicates and holds exactly the in-range entries. */
  lemma {:induction false} UsedOrderExact(orders: seq<int>, count: nat)
    ensures Distinct(UsedOrder(orders, count))
    ensures forall x :: x in UsedOrder(orders, count) <==> x in orders && 0 <= x < count
    ensures forall i :: 0 <= i < |UsedOrder(orders, count)| ==> 0 <= UsedOrder(orders, count)[i] < count
  {
    if |orders| > 0 {
      var prefix := orders[..|orders| - 1];
      UsedOrderExact(prefix, count);
      assert orders == prefix + [orders[|orders| - 1]];
    }
  }

  /**
   * The invalid references are exactly the out-of-range entries: each value
   * outside `0..<count` occurs as often as in the order table, no other value
   * occurs, and splitting the order table splits the list, so order is kept.
   */
  lemma {:induction false} InvalidRefsExact(orders: seq<int>, more: seq<int>, count: nat)
    ensures forall x :: multiset(InvalidRefs(orders, count))[x] == if 0 <= x < count then 0 else multiset(orders)[x]
    ensures InvalidRefs(orders + more, count) == InvalidRefs(orders, count) + InvalidRefs(more, count)
    decreases |orders| + |more|
  {
    if |more| == 0 {
      assert orders + more == orders;
      if |orders| > 0 {
        var prefix := orders[..|orders| - 1];
        InvalidRefsExact(prefix, [], count);
        assert orders == prefix + [orders[|orders| - 1]];
      }
    } else {
      var front := more[..|more| - 1];
      InvalidRefsExact(orders, front, count);
      assert (orders + more)[..|orders + more| - 1] == orders + front;
      assert more[..|more| - 1] == front;
    }
  }

  /** Sorting a sequence without duplicates gives a strictly ascending one. */
  lemma SortedDistinctIsStrict(s: seq<int>)
    requires Distinct(s)
    ensures StrictlyAscending(SortAscending(s))
  {
    var r := SortAscending(s);
    SortAscendingSorts(s);
    forall i, j | 0 <= i < j < |r|
      ensures r[i] < r[j]
    {
      if r[i] == r[j] {
        RepeatedValueCountsTwice(r, i, j);
        DistinctCountsOnce(s, r[i]);
      }
    }
  }

  /** A value found at two positions occurs at least twice. */
  lemma RepeatedValueCountsTwice(r: seq<int>, i: nat, j: nat)
    requires i < j < |r| && r[i] == r[j]
    ensures multiset(r)[r[i]] >= 2
  {
    var front, back := r[..j], r[j..];
    assert r == front + back;
    assert front[i] == r[i] && back[0] == r[j];
    assert r[i] in multiset(front) && r[j] in multiset(back);
  }

  /** In a sequence without duplicates every value occurs at most once. */
  lemma {:induction false} DistinctCountsOnce(s: seq<int>, x: int)
    requires Distinct(s)
    ensures multiset(s)[x] <= 1
  {
    if |s| > 0 {
      var prefix := s[..|s| - 1];
      assert s == prefix + [s[|s| - 1]];
      DistinctCountsOnce(prefix, x);
      if s[|s| - 1] == x {
        assert x !in prefix;
      }
    }
  }

  /** The head of a strictly ascending sequence is its least element, and the tail holds the rest. */
  lemma AscendingHeadAndTail(s: seq<int>)
    requires StrictlyAscending(s) && |s| > 0
    ensures forall x :: x in s ==> s[0] <= x
    ensures forall x :: x in s[1..] <==> x in s && x != s[0]
  {
    forall x | x in s
      ensures s[0] <= x
    {
      var k :| 0 <= k < |s| && s[k] == x;
    }
    forall x
      ensures x in s[1..] <==> x in s && x != s[0]
    {
      if x in s && x != s[0] {
        var k :| 0 <= k < |s| && s[k] == x;
        assert s[1..][k - 1] == x;
      }
    }
  }

  /** Two strictly ascending sequences with the same elements are equal. */
  lemma {:induction false} AscendingDeterminedByElements(a: seq<int>, b: seq<int>)
    requires StrictlyAscending(a) && StrictlyAscending(b)
    requires forall x :: x in a <==> x in b
    ensures a == b
    decreases |a|
  {
    assert |a| > 0 ==> a[0] in a && a[0] in b;
    assert |b| > 0 ==> b[0] in b && b[0] in a;
    if |a| > 0 && |b| > 0 {
      AscendingHeadAndTail(a);
      AscendingHeadAndTail(b);
      assert a[0] == b[0];
      AscendingDeterminedByElements(a[1..], b[1..]);
      assert a == [a[0]] + a[1..] && b == [b[0]] + b[1..];
    }
  }

  /**
   * Without show-all the list is the used patterns, strictly ascending, all
   * marked used, and it is determined by which patterns the order table uses:
   * any strictly ascending listing of them is this one. When no pattern is
   * used, a non-empty module still offers pattern 0, marked unused; a module
   * with no patterns offers nothing.
   */
  lemma UsedSelection(orders: seq<int>, patternCount: int, rowCounts: seq<int>, listing: seq<int>)
    requires StrictlyAscending(listing)
    requires forall x :: x in listing <==> x in orders && 0 <= x < patternCount
    ensures var sel := PatternSelection(orders, patternCount, rowCounts, false).entries;
      && (|listing| > 0 ==>
            |sel| == |listing|
            && forall i :: 0 <= i < |sel| ==> sel[i].patternIndex == listing[i] && sel[i].isUsed)
      && (|listing| == 0 && patternCount > 0 ==> sel == [Entry(0, false, RowCountFor(rowCounts, 0))])
      && (patternCount <= 0 ==> sel == [])
  {
    var count := SafeCount(patternCount);
    var used := UsedOrder(orders, count);
    UsedOrderExact(orders, count);
    SortedDistinctIsStrict(used);
    SortKeepsElements(used);
    AscendingDeterminedByElements(SortAscending(used), listing);
  }

  /**
   * With show-all the list is every pattern `0..<patternCount` in order, and a
   * pattern is marked used exactly when the order table names it.
   */
  lemma ShowAllSelection(orders: seq<int>, patternCount: int, rowCounts: seq<int>)
    ensures var sel := PatternSelection(orders, patternCount, rowCounts, true).entries;
      && |sel| == SafeCount(patternCount)
      && forall p :: 0 <= p < |sel| ==> sel[p].patternIndex == p && (sel[p].isUsed <==> p in orders)
  {
  }

  /**
   * Every offered entry shows at least one row: its row count raised to 1
   * when the table has one, 64 otherwise.
   */
  lemma RowCountsAtLeastOne(orders: seq<int>, patternCount: int, rowCounts: seq<int>, showAll: bool)
    ensures var sel := PatternSelection(orders, patternCount, rowCounts, showAll).entries;
      forall i :: 0 <= i < |sel| ==>
        (&& sel[i].patternIndex >= 0
         && sel[i].rowCount == RowCountFor(rowCounts, sel[i].patternIndex) >= 1
         && (sel[i].patternIndex >= |rowCounts| ==> sel[i].rowCount == 64))
  {
    if !showAll {
      UsedOrderExact(orders, SafeCount(patternCount));
      SortedInRange(UsedOrder(orders, SafeCount(patternCount)), SafeCount(patternCount));
    }
  }

  /**
   * The first pass of `buildPatternSelection`: the in-range entries at their
   * first occurrence, the set of them, and the out-of-range entries.
   */
  method ScanOrderTable(orderTable: seq<int>, safePatternCount: nat)
    returns (usedUnique: seq<int>, usedSeen: set<int>, invalidReferenced: seq<int>)
    ensures usedUnique == UsedOrder(orderTable, safePatternCount)
    ensures forall x :: x in usedSeen <==> x in usedUnique
    ensures invalidReferenced == InvalidRefs(orderTable, safePatternCount)
  {
    usedUnique, usedSeen, invalidReferenced := [], {}, [];
    for k := 0 to |orderTable|
      invariant usedUnique == UsedOrder(orderTable[..k], safePatternCount)
      invariant forall x :: x in usedSeen <==> x in usedUnique
      invariant invalidReferenced == InvalidRefs(orderTable[..k], safePatternCount)
    {
      var patternIndex := orderTable[k];
      assert orderTable[..k + 1][..k] == orderTable[..k];
      if 0 <= patternIndex < safePatternCount {
        if patternIndex !in usedSeen {
          usedSeen := usedSeen + {patternIndex};
          usedUnique := usedUnique + [patternIndex];
        }
      } else {
        invalidReferenced := invalidReferenced + [patternIndex];
      }
    }
    assert orderTable[..|orderTable|] == orderTable;
  }

  /** The show-all pass: one entry per pattern, marked used when `usedSeen` holds it. */
  method ListAllPatterns(orderTable: seq<int>, safePatternCount: nat, rowCounts: seq<int>, usedSeen: set<int>)
    returns (entries: seq<Entry>)
    requires forall x :: x in usedSeen <==> x in orderTable && 0 <= x < safePatternCount
    ensures entries == AllEntries(orderTable, safePatternCount, rowCounts)
  {
    entries := [];
    for patternIndex := 0 to safePatternCount
      invariant entries == AllEntries(orderTable, safePatternCount, rowCounts)[..patternIndex]
    {
      var rowCount := if patternIndex < |rowCounts| then (if rowCounts[patternIndex] < 1 then 1 else rowCounts[patternIndex]) else 64;
      entries := entries + [Entry(patternIndex, patternIndex in usedSeen, rowCount)];
    }
  }

  /** The used-only pass over the sorted indices. */
  method ListUsedPatterns(sorted: seq<int>, rowCounts: seq<int>) returns (entries: seq<Entry>)
    requires forall i :: 0 <= i < |sorted| ==> sorted[i] >= 0
    ensures entries == UsedEntries(sorted, rowCounts)
  {
    entries := [];
    for i := 0 to |sorted|
      invariant entries == UsedEntries(sorted, rowCounts)[..i]
    {
      var patternIndex := sorted[i];
      var rowCount := if patternIndex < |rowCounts| then (if rowCounts[patternIndex] < 1 then 1 else rowCounts[patternIndex]) else 64;
      entries := entries + [Entry(patternIndex, true, rowCount)];
    }
  }

  /**
   * `buildPatternSelection` as written: one pass over the order table filling
   * `usedSeen`, `usedUnique` and `invalidReferenced`, then one pass building
   * the entries.
   */
  method BuildPatternSelection(orderTable: seq<int>, patternCount: int, rowCounts: seq<int>, showAllPatterns: bool)
    returns (entries: seq<Entry>, invalidReferencedPatterns: seq<int>)
    ensures Selection(entries, invalidReferencedPatterns)
      == PatternSelection(orderTable, patternCount, rowCounts, showAllPatterns)
  {
    var safePatternCount := SafeCount(patternCount);
    var usedUnique, usedSeen, invalidReferenced := ScanOrderTable(orderTable, safePatternCount);
    UsedOrderExact(orderTable, safePatternCount);

    if showAllPatterns {
      entries := ListAllPatterns(orderTable, safePatternCount, rowCounts, usedSeen);
    } else {
      var sorted := SortAscending(usedUnique);
      SortedInRange(usedUnique, safePatternCount);
      entries := ListUsedPatterns(sorted, rowCounts);
      if |entries| == 0 && safePatternCount > 0 {
        var rowCount := if |rowCounts| == 0 then 64 else (if rowCounts[0] < 1 then 1 else rowCounts[0]);
        entries := entries + [Entry(0, false, rowCount)];
      }
    }
    invalidReferencedPatterns := invalidReferenced;
  }

  /** The test fixture: order table [0, 2, 2, 5, 1, 0] over 4 patterns offers 0, 1, 2, all used, and flags 5. */
  lemma DeduplicatesAndTracksInvalid()
    ensures var sel := PatternSelection([0, 2, 2, 5, 1, 0], 4, [64, 32, 48, 16], false);
      && |sel.entries| == 3
      && sel.entries[0].patternIndex == 0 && sel.entries[1].patternIndex == 1 && sel.entries[2].patternIndex == 2
      && sel.entries[0].isUsed && sel.entries[1].isUsed && sel.entries[2].isUsed
      && sel.invalidReferencedPatterns == [5]
  {
    var orders := [0, 2, 2, 5, 1, 0];
    assert forall x :: x in [0, 1, 2] <==> x in orders && 0 <= x < 4 by {
      assert orders[0] == 0 && orders[4] == 1 && orders[1] == 2;
    }
    UsedSelection(orders, 4, [64, 32, 48, 16], [0, 1, 2]);
    InvalidRefsExact([0, 2, 2], [5, 1, 0], 4);
    assert [0, 2, 2] + [5, 1, 0] == orders;
    assert InvalidRefs([0, 2, 2], 4) == [] by {
      assert [0, 2, 2][..2] == [0, 2] && [0, 2][..1] == [0] && [0][..0] == [];
    }
    assert InvalidRefs([5, 1, 0], 4) == [5] by {
      assert [5, 1, 0][..2] == [5, 1] && [5, 1][..1] == [5] && [5][..0] == [];
    }
  }

  /** The test fixture: show-all over 4 patterns with order table [2, 2, 0] marks 0 and 2 used. */
  lemma ShowAllMarksUsed()
    ensures var sel := PatternSelection([2, 2, 0], 4, [64, 32, 48, 16], true);
      && |sel.entries| == 4
      && sel.entries[0].patternIndex == 0 && sel.entries[1].patternIndex == 1
      && sel.entries[2].patternIndex == 2 && sel.entries[3].patternIndex == 3
      && sel.entries[0].isUsed && !sel.entries[1].isUsed && sel.entries[2].isUsed && !sel.entries[3].isUsed
  {
    ShowAllSelection([2, 2, 0], 4, [64, 32, 48, 16]);
  }
}

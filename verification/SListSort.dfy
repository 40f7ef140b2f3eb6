// The merge sort of the singly linked lists in the bundled libltdl.
module SListSort {
  import opened Lists

  // ---------------------------------------------------------------- sorting as a function

  /** compare is a total preorder of these items. */
  ghost predicate Ranks<T>(compare: (T, T) -> int, all: set<T>) {
    && (forall a, b :: a in all && b in all ==> compare(a, b) <= 0 || compare(b, a) <= 0)
    && (forall a, b, c :: a in all && b in all && c in all && compare(a, b) <= 0 && compare(b, c) <= 0 ==>
      compare(a, c) <= 0)
  }

  lemma RanksThrough<T>(compare: (T, T) -> int, all: set<T>, a: T, b: T, c: T)
    requires Ranks(compare, all) && a in all && b in all && c in all && compare(a, b) <= 0 && compare(b, c) <= 0
    ensures compare(a, c) <= 0
  {
  }

  function Merge<T>(left: seq<T>, right: seq<T>, compare: (T, T) -> int): (r: seq<T>)
    ensures |r| == |left| + |right|
    decreases |left| + |right|
  {
    if left == [] then right
    else if right == [] then left
    else if compare(left[0], right[0]) <= 0 then [left[0]] + Merge(left[1..], right, compare)
    else [right[0]] + Merge(left, right[1..], compare)
  }

  function Sort<T>(s: seq<T>, compare: (T, T) -> int): (r: seq<T>)
    ensures |r| == |s|
  {
    if |s| <= 1 then s
    else Merge(Sort(s[..|s| / 2], compare), Sort(s[|s| / 2..], compare), compare)
  }

  ghost predicate Sorted<T>(s: seq<T>, compare: (T, T) -> int) {
    forall i, j :: 0 <= i < j < |s| ==> compare(s[i], s[j]) <= 0
  }

  /** The items of s that rank like x, in the order in which s has them. */
  function Alike<T>(s: seq<T>, x: T, compare: (T, T) -> int): seq<T> {
    if s == [] then []
    else (if compare(x, s[0]) <= 0 && compare(s[0], x) <= 0 then [s[0]] else []) + Alike(s[1..], x, compare)
  }

  lemma {:induction false} AlikeAppend<T>(a: seq<T>, b: seq<T>, x: T, compare: (T, T) -> int)
    ensures Alike(a + b, x, compare) == Alike(a, x, compare) + Alike(b, x, compare)
  {
    if a == [] {
      assert a + b == b;
    } else {
      assert (a + b)[1..] == a[1..] + b;
      AlikeAppend(a[1..], b, x, compare);
    }
  }

  lemma {:induction false} NoneAlike<T>(s: seq<T>, x: T, compare: (T, T) -> int)
    requires forall y :: y in s ==> compare(y, x) > 0
    ensures Alike(s, x, compare) == []
  {
    if s != [] { NoneAlike(s[1..], x, compare); }
  }

  lemma HeadCounts<T>(s: seq<T>)
    requires s != []
    ensures multiset(s) == multiset{s[0]} + multiset(s[1..])
  {
    assert s == [s[0]] + s[1..];
  }

  lemma {:induction false} MergeElements<T>(left: seq<T>, right: seq<T>, compare: (T, T) -> int)
    ensures multiset(Merge(left, right, compare)) == multiset(left) + multiset(right)
    decreases |left| + |right|
  {
    if left != [] && right != [] {
      var m := Merge(left, right, compare);
      HeadCounts(m);
      if compare(left[0], right[0]) <= 0 {
        assert m[1..] == Merge(left[1..], right, compare);
        MergeElements(left[1..], right, compare);
        HeadCounts(left);
      } else {
        assert m[1..] == Merge(left, right[1..], compare);
        MergeElements(left, right[1..], compare);
        HeadCounts(right);
      }
    }
  }

  lemma MergedIn<T>(left: seq<T>, right: seq<T>, compare: (T, T) -> int, y: T)
    requires y in Merge(left, right, compare)
    ensures y in left || y in right
  {
    MergeElements(left, right, compare);
    assert y in multiset(Merge(left, right, compare));
  }

  ghost predicate Within<T>(s: seq<T>, all: set<T>) {
    forall y :: y in s ==> y in all
  }

  /** An item that comes before the head of a sorted list comes before all of it. */
  lemma BeforeAll<T>(x: T, s: seq<T>, compare: (T, T) -> int, all: set<T>)
    requires Sorted(s, compare) && Ranks(compare, all) && x in all && Within(s, all)
    requires s != [] ==> compare(x, s[0]) <= 0
    ensures forall y :: y in s ==> compare(x, y) <= 0
  {
    forall y | y in s ensures compare(x, y) <= 0 {
      var j :| 0 <= j < |s| && s[j] == y;
      assert s[0] in s;
      if j > 0 { RanksThrough(compare, all, x, s[0], y); }
    }
  }

  lemma FirstIsLeast<T>(x: T, left: seq<T>, right: seq<T>, compare: (T, T) -> int)
    requires Sorted(Merge(left, right, compare), compare)
    requires (forall y :: y in left ==> compare(x, y) <= 0) && (forall y :: y in right ==> compare(x, y) <= 0)
    ensures Sorted([x] + Merge(left, right, compare), compare)
  {
    var m := Merge(left, right, compare);
    forall i, j | 0 <= i < j < |[x] + m| ensures compare(([x] + m)[i], ([x] + m)[j]) <= 0 {
      MergedIn(left, right, compare, m[j - 1]);
    }
  }

  lemma SortedTail<T>(s: seq<T>, compare: (T, T) -> int)
    requires Sorted(s, compare) && s != []
    ensures Sorted(s[1..], compare) && forall y :: y in s[1..] ==> compare(s[0], y) <= 0
  {
  }

  lemma {:induction false} MergeSorted<T>(left: seq<T>, right: seq<T>, compare: (T, T) -> int, all: set<T>)
    requires Sorted(left, compare) && Sorted(right, compare) && Ranks(compare, all)
    requires Within(left, all) && Within(right, all)
    ensures Sorted(Merge(left, right, compare), compare)
    decreases |left| + |right|
  {
    hide Sorted, Ranks;
    if left != [] && right != [] {
      if compare(left[0], right[0]) <= 0 {
        SortedTail(left, compare);
        BeforeAll(left[0], right, compare, all);
        MergeSorted(left[1..], right, compare, all);
        FirstIsLeast(left[0], left[1..], right, compare);
      } else {
        SortedTail(right, compare);
        Ranked(left[0], right[0], compare, all);
        BeforeAll(right[0], left, compare, all);
        MergeSorted(left, right[1..], compare, all);
        FirstIsLeast(right[0], left, right[1..], compare);
      }
    }
  }

  lemma Ranked<T>(a: T, b: T, compare: (T, T) -> int, all: set<T>)
    requires Ranks(compare, all) && a in all && b in all && compare(a, b) > 0
    ensures compare(b, a) <= 0
  {
  }

  /** Merging keeps the order of items that rank alike, those of the left list first. */
  lemma {:induction false} MergeAlike<T>(left: seq<T>, right: seq<T>, x: T, compare: (T, T) -> int, all: set<T>)
    requires Sorted(left, compare) && Sorted(right, compare) && Ranks(compare, all)
    requires Within(left, all) && Within(right, all) && x in all
    ensures Alike(Merge(left, right, compare), x, compare) == Alike(left, x, compare) + Alike(right, x, compare)
    decreases |left| + |right|
  {
    hide Sorted, Ranks, Merge, Alike, Within;
    MergeStep(left, right, compare);
    if left == [] || right == [] {
      NothingAlike(x, compare);
    } else if compare(left[0], right[0]) <= 0 {
      TailStays(left, compare, all);
      MergeAlike(left[1..], right, x, compare, all);
      AlikeStep(left, x, compare);
      AlikeCons(left[0], Merge(left[1..], right, compare), x, compare);
    } else {
      TailStays(right, compare, all);
      MergeAlike(left, right[1..], x, compare, all);
      AlikeStep(right, x, compare);
      AlikeCons(right[0], Merge(left, right[1..], compare), x, compare);
      if compare(x, right[0]) <= 0 && compare(right[0], x) <= 0 { LeftIsHigher(left, right[0], x, compare, all); }
    }
  }

  lemma MergeStep<T>(left: seq<T>, right: seq<T>, compare: (T, T) -> int)
    ensures Merge(left, right, compare) ==
      if left == [] then right
      else if right == [] then left
      else if compare(left[0], right[0]) <= 0 then [left[0]] + Merge(left[1..], right, compare)
      else [right[0]] + Merge(left, right[1..], compare)
  {
  }

  lemma TailStays<T>(s: seq<T>, compare: (T, T) -> int, all: set<T>)
    requires Sorted(s, compare) && Within(s, all) && s != []
    ensures Sorted(s[1..], compare) && Within(s[1..], all) && s[0] in all
  {
  }

  lemma NothingAlike<T>(x: T, compare: (T, T) -> int)
    ensures Alike([], x, compare) == []
  {
  }

  lemma AlikeStep<T>(s: seq<T>, x: T, compare: (T, T) -> int)
    requires s != []
    ensures Alike(s, x, compare) ==
      (if compare(x, s[0]) <= 0 && compare(s[0], x) <= 0 then [s[0]] else []) + Alike(s[1..], x, compare)
  {
  }

  lemma AlikeCons<T>(y: T, s: seq<T>, x: T, compare: (T, T) -> int)
    ensures Alike([y] + s, x, compare) ==
      (if compare(x, y) <= 0 && compare(y, x) <= 0 then [y] else []) + Alike(s, x, compare)
  {
    assert ([y] + s)[1..] == s;
  }

  lemma HeadBefore<T>(s: seq<T>, y: T, compare: (T, T) -> int, all: set<T>)
    requires Sorted(s, compare) && Ranks(compare, all) && Within(s, all) && y in s
    ensures compare(s[0], y) <= 0 && s[0] in all && y in all
  {
    assert s[0] in s;
    var j :| 0 <= j < |s| && s[j] == y;
    assert compare(s[0], s[0]) <= 0;
  }

  lemma HeadThrough<T>(s: seq<T>, k: T, y: T, compare: (T, T) -> int, all: set<T>)
    requires Sorted(s, compare) && Ranks(compare, all) && Within(s, all) && k in s && y in all && compare(k, y) <= 0
    ensures compare(s[0], y) <= 0
  {
    HeadBefore(s, k, compare, all);
    RanksThrough(compare, all, s[0], k, y);
  }

  /** If the head of a sorted list comes after y, none of the list ranks like x, which ranks like y. */
  lemma LeftIsHigher<T>(left: seq<T>, y: T, x: T, compare: (T, T) -> int, all: set<T>)
    requires Sorted(left, compare) && Ranks(compare, all) && Within(left, all) && x in all && y in all
    requires left != [] && compare(left[0], y) > 0 && compare(y, x) <= 0 && compare(x, y) <= 0
    ensures Alike(left, x, compare) == []
  {
    forall k | k in left ensures compare(k, x) > 0 {
      if compare(k, x) <= 0 {
        RanksThrough(compare, all, k, x, y);
        HeadThrough(left, k, y, compare, all);
        assert false;
      }
    }
    NoneAlike(left, x, compare);
  }

  // ---------------------------------------------------------------- what sorting gives

  lemma {:induction false} SortPermutes<T>(s: seq<T>, compare: (T, T) -> int)
    ensures multiset(Sort(s, compare)) == multiset(s)
  {
    hide Merge, Sort;
    SortStep(s, compare);
    if |s| > 1 {
      var a, b := s[..|s| / 2], s[|s| / 2..];
      SortPermutes(a, compare);
      SortPermutes(b, compare);
      MergeElements(Sort(a, compare), Sort(b, compare), compare);
      assert s == a + b;
    }
  }

  lemma SortStep<T>(s: seq<T>, compare: (T, T) -> int)
    ensures Sort(s, compare) ==
      if |s| <= 1 then s else Merge(Sort(s[..|s| / 2], compare), Sort(s[|s| / 2..], compare), compare)
  {
  }

  lemma SortWithin<T>(s: seq<T>, compare: (T, T) -> int, all: set<T>)
    requires Within(s, all)
    ensures Within(Sort(s, compare), all)
  {
    SortPermutes(s, compare);
    forall y | y in Sort(s, compare) ensures y in all {
      assert y in multiset(Sort(s, compare));
      assert y in multiset(s);
    }
  }

  lemma {:induction false} SortSorts<T>(s: seq<T>, compare: (T, T) -> int, all: set<T>)
    requires Ranks(compare, all) && Within(s, all)
    ensures Sorted(Sort(s, compare), compare)
  {
    if |s| > 1 {
      var a, b := s[..|s| / 2], s[|s| / 2..];
      SortSorts(a, compare, all);
      SortSorts(b, compare, all);
      SortWithin(a, compare, all);
      SortWithin(b, compare, all);
      MergeSorted(Sort(a, compare), Sort(b, compare), compare, all);
    }
  }

  /** Items that rank alike keep their order. */
  lemma {:induction false} SortIsStable<T>(s: seq<T>, x: T, compare: (T, T) -> int, all: set<T>)
    requires Ranks(compare, all) && Within(s, all) && x in all
    ensures Alike(Sort(s, compare), x, compare) == Alike(s, x, compare)
  {
    if |s| > 1 {
      var a, b := s[..|s| / 2], s[|s| / 2..];
      assert s == a + b;
      hide Merge, Alike, Sorted, Ranks, Sort;
      SortHalves(s, compare);
      SortIsStable(a, x, compare, all);
      SortIsStable(b, x, compare, all);
      SortSorts(a, compare, all);
      SortSorts(b, compare, all);
      SortWithin(a, compare, all);
      SortWithin(b, compare, all);
      MergeAlike(Sort(a, compare), Sort(b, compare), x, compare, all);
      AlikeAppend(a, b, x, compare);
    }
  }

  lemma SortHalves<T>(s: seq<T>, compare: (T, T) -> int)
    requires |s| > 1
    ensures Sort(s, compare) == Merge(Sort(s[..|s| / 2], compare), Sort(s[|s| / 2..], compare), compare)
  {
  }

  // ---------------------------------------------------------------- the list in memory

  class SList {
    const userdata: int
    var next: SList?

    constructor (userdata: int)
      ensures this.userdata == userdata && next == null
    {
      this.userdata, next := userdata, null;
    }
  }

  ghost function Nodes(nodes: seq<SList>): set<SList> {
    set n | n in nodes
  }

  /** The list that starts at `head` is these nodes, each once, and then ends. */
  ghost predicate Chain(head: SList?, nodes: seq<SList>)
    reads Nodes(nodes)
  {
    && head == (if nodes == [] then null else nodes[0])
    && Distinct(nodes)
    && (forall i, j :: 0 <= i && j == i + 1 && j < |nodes| ==> nodes[i].next == nodes[j])
    && (nodes != [] ==> nodes[|nodes| - 1].next == null)
  }

  /** The nodes of the row hang one behind the other; what the last one points to is left open. */
  ghost predicate Strung(row: seq<SList>)
    reads Nodes(row)
  {
    Distinct(row) && forall i, j :: 0 <= i && j == i + 1 && j < |row| ==> row[i].next == row[j]
  }

  ghost predicate Apart(a: seq<SList>, b: seq<SList>) {
    forall n :: n in a ==> n !in b
  }

  lemma ChainTail(head: SList, nodes: seq<SList>)
    requires Chain(head, nodes)
    ensures nodes != [] && head == nodes[0] && Chain(head.next, nodes[1..]) && head !in nodes[1..]
  {
    var rest := nodes[1..];
    assert forall i :: 0 <= i < |rest| ==> rest[i] == nodes[i + 1] && rest[i] != nodes[0];
    if rest != [] { assert nodes[0].next == nodes[1]; }
  }

  lemma RowGrows(row: seq<SList>, item: SList)
    requires Strung(row) && row != [] && row[|row| - 1].next == item && item !in row
    ensures Strung(row + [item])
  {
  }

  /** insert = insert->next = item */
  method Hang(insert: SList, item: SList, ghost row: seq<SList>, ghost items: seq<SList>, ghost others: seq<SList>,
      ghost other: SList?)
    requires Strung(row) && row != [] && insert == row[|row| - 1]
    requires Chain(item, items) && Chain(other, others) && Apart(row, items) && Apart(row, others) &&
      Apart(items, others)
    modifies insert
    ensures insert.next == item && Strung(row + [item]) && Chain(item, items) && Chain(other, others)
    ensures items != [] && Chain(item.next, items[1..])
    ensures Apart(row + [item], items[1..]) && Apart(row + [item], others) && Apart(items[1..], others)
  {
    assert insert in row;
    ChainTail(item, items);
    insert.next := item;
    assert Chain(item, items);
    assert forall n :: n in items[1..] ==> n in items;
    ChainTail(item, items);
    RowGrows(row, item);
  }

  lemma MergeTakes(left: seq<SList>, right: seq<SList>, compare: (SList, SList) -> int, done: seq<SList>)
    requires left != [] && right != []
    ensures compare(left[0], right[0]) <= 0 ==>
      done + Merge(left, right, compare) == done + [left[0]] + Merge(left[1..], right, compare)
    ensures compare(left[0], right[0]) > 0 ==>
      done + Merge(left, right, compare) == done + [right[0]] + Merge(left, right[1..], compare)
  {
    if compare(left[0], right[0]) <= 0 {
      assert done + ([left[0]] + Merge(left[1..], right, compare)) ==
        done + [left[0]] + Merge(left[1..], right, compare);
    } else {
      assert done + ([right[0]] + Merge(left, right[1..], compare)) ==
        done + [right[0]] + Merge(left, right[1..], compare);
    }
  }

  lemma DistinctTogether(a: seq<SList>, b: seq<SList>)
    requires Distinct(a) && Distinct(b) && Apart(a, b)
    ensures Distinct(a + b)
  {
    forall i, j | 0 <= i < j < |a + b| ensures (a + b)[i] != (a + b)[j] {
      if i < |a| <= j {
        assert a[i] in a && b[j - |a|] in b;
      }
    }
  }

  /** slist_sort_merge */
  method SListSortMerge(left: SList?, right: SList?, compare: (SList, SList) -> int, ghost ls: seq<SList>,
      ghost rs: seq<SList>)
    returns (merged: SList?)
    requires Chain(left, ls) && Chain(right, rs) && Apart(ls, rs)
    modifies Nodes(ls), Nodes(rs)
    ensures Chain(merged, Merge(ls, rs, compare))
  {
    hide Merge;
    var dummy := new SList(0);
    var insert, l, r := dummy, left, right;
    ghost var row, a, b := [dummy], ls, rs;
    while l != null && r != null
      invariant Chain(l, a) && Chain(r, b) && Strung(row) && row != [] && row[0] == dummy && insert == row[|row| - 1]
      invariant row + Merge(a, b, compare) == [dummy] + Merge(ls, rs, compare)
      invariant Apart(row, a) && Apart(row, b) && Apart(a, b)
      invariant insert == dummy || insert in ls || insert in rs
      invariant (forall n :: n in a ==> n in ls) && (forall n :: n in b ==> n in rs)
      decreases |a| + |b|
    {
      MergeTakes(a, b, compare, row);
      if compare(l, r) <= 0 {
        Hang(insert, l, row, a, b, r);
        insert := l;
        l := l.next;
        row, a := row + [a[0]], a[1..];
      } else {
        Hang(insert, r, row, b, a, l);
        insert := r;
        r := r.next;
        row, b := row + [b[0]], b[1..];
      }
    }
    MergeEnds(a, b, compare);
    if l != null {
      HangRest(insert, l, row, a);
    } else {
      HangRest(insert, r, row, b);
    }
    assert ([dummy] + Merge(ls, rs, compare))[1..] == Merge(ls, rs, compare);
    merged := dummy.next;
  }

  lemma MergeEnds(a: seq<SList>, b: seq<SList>, compare: (SList, SList) -> int)
    ensures Merge(a, [], compare) == a && Merge([], b, compare) == b
  {
  }

  /** insert->next = rest */
  method HangRest(insert: SList, rest: SList?, ghost row: seq<SList>, ghost items: seq<SList>)
    requires Strung(row) && row != [] && insert == row[|row| - 1] && Chain(rest, items) && Apart(row, items)
    modifies insert
    ensures Chain(row[0].next, (row + items)[1..])
  {
    assert insert in row;
    insert.next := rest;
    DistinctTogether(row, items);
    ghost var all := row + items;
    assert Chain(row[0], all);
    ChainTail(row[0], all);
  }

  lemma NextIs(head: SList?, nodes: seq<SList>, k: nat)
    requires Chain(head, nodes) && k < |nodes|
    ensures nodes[k].next == if k + 1 < |nodes| then nodes[k + 1] else null
  {
    if k + 1 < |nodes| { assert nodes[k].next == nodes[k + 1]; }
  }

  /** The split: the list is cut in the middle. */
  method Split(slist: SList, ghost nodes: seq<SList>) returns (left: SList, right: SList?)
    requires Chain(slist, nodes) && |nodes| > 1
    modifies Nodes(nodes)
    ensures Chain(left, nodes[..|nodes| / 2]) && Chain(right, nodes[|nodes| / 2..])
  {
    left := slist;
    right := slist.next;
    var slow := slist;
    ghost var a := 0;
    NextIs(slist, nodes, 0);
    while right != null
      invariant Chain(slist, nodes) && 2 * a + 1 < |nodes| && slow == nodes[a] && right == nodes[2 * a + 1]
      decreases |nodes| - a
    {
      NextIs(slist, nodes, 2 * a + 1);
      right := right.next;
      if right == null {
        break;
      }
      NextIs(slist, nodes, 2 * a + 2);
      right := right.next;
      if right == null {
        break;
      }
      NextIs(slist, nodes, a);
      slow := slow.next;
      a := a + 1;
    }
    assert a + 1 == |nodes| / 2;
    NextIs(slist, nodes, a);
    right := slow.next;
    slow.next := null;
    Halves(nodes, a + 1);
  }

  lemma Halves(nodes: seq<SList>, k: nat)
    requires 0 < k < |nodes| && Distinct(nodes)
    requires forall i, j :: 0 <= i && j == i + 1 && j < |nodes| && j != k ==> nodes[i].next == nodes[j]
    requires nodes[k - 1].next == null && nodes[|nodes| - 1].next == null
    ensures Chain(nodes[0], nodes[..k]) && Chain(nodes[k], nodes[k..])
  {
    var a, b := nodes[..k], nodes[k..];
    assert forall i, j :: 0 <= i && j == i + 1 && j < |b| ==> b[i] == nodes[k + i] && b[j] == nodes[k + j];
    forall i, j | 0 <= i && j == i + 1 && j < |b| ensures b[i].next == b[j] {
      assert nodes[k + i].next == nodes[k + j];
    }
  }

  /** slist_sort: the same nodes, in the order of Sort, and again a list that ends. */
  method SListSort(slist: SList?, compare: (SList, SList) -> int, ghost nodes: seq<SList>) returns (sorted: SList?)
    requires Chain(slist, nodes)
    modifies Nodes(nodes)
    ensures Chain(sorted, Sort(nodes, compare))
    decreases |nodes|, 1
  {
    if slist == null {
      return slist;
    }
    if slist.next == null {
      if |nodes| > 1 { NextIs(slist, nodes, 0); }
      return slist;
    }
    ghost var a, b := nodes[..|nodes| / 2], nodes[|nodes| / 2..];
    HalvesApart(nodes, |nodes| / 2);
    SortedApart(a, b, compare);
    SortHalves(nodes, compare);
    var left, right := Split(slist, nodes);
    sorted := SortBoth(left, right, compare, a, b);
  }

  method SortBoth(left: SList, right: SList?, compare: (SList, SList) -> int, ghost a: seq<SList>, ghost b: seq<SList>)
    returns (sorted: SList?)
    requires Chain(left, a) && Chain(right, b) && Apart(a, b) && Apart(b, a) && b != []
    requires Apart(Sort(a, compare), Sort(b, compare)) && Apart(Sort(a, compare), b)
    requires (forall n :: n in Sort(a, compare) ==> n in a) && (forall n :: n in Sort(b, compare) ==> n in b)
    modifies Nodes(a), Nodes(b)
    ensures Chain(sorted, Merge(Sort(a, compare), Sort(b, compare), compare))
    decreases |a| + |b|, 0
  {
    hide Sort;
    ApartNodes(a, b);
    var l := SListSort(left, compare, a);
    assert Chain(right, b);
    var r := SListSort(right, compare, b);
    assert Chain(l, Sort(a, compare));
    sorted := SListSortMerge(l, r, compare, Sort(a, compare), Sort(b, compare));
  }

  lemma ApartNodes(a: seq<SList>, b: seq<SList>)
    requires Apart(a, b)
    ensures Nodes(a) !! Nodes(b)
  {
  }

  lemma HalvesApart(nodes: seq<SList>, k: nat)
    requires Distinct(nodes) && k <= |nodes|
    ensures Apart(nodes[..k], nodes[k..]) && Apart(nodes[k..], nodes[..k])
    ensures (forall n :: n in nodes[..k] ==> n in nodes) && (forall n :: n in nodes[k..] ==> n in nodes)
  {
    forall n | n in nodes[..k] ensures n !in nodes[k..] {
      var i :| 0 <= i < k && nodes[i] == n;
      assert forall j :: 0 <= j < |nodes[k..]| ==> nodes[k..][j] == nodes[k + j];
    }
  }

  lemma SortedApart(a: seq<SList>, b: seq<SList>, compare: (SList, SList) -> int)
    requires Apart(a, b)
    ensures Apart(Sort(a, compare), Sort(b, compare))
    ensures forall n :: n in Sort(a, compare) ==> n in a
    ensures forall n :: n in Sort(b, compare) ==> n in b
    ensures Apart(Sort(a, compare), b)
  {
    SortWithin(a, compare, set n | n in a);
    SortWithin(b, compare, set n | n in b);
  }
}

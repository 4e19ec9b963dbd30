/**
 * The intrusive doubly-linked list of src/linked_list.c.
 *
 * A `ListHead` is modelled by the sequence of items reachable from `first`
 * by `next` links; `first`, `last` and `size` are then `First(l)`,
 * `Last(l)` and `|l|`. An item carries its own prev/next links; whether
 * they are set is an argument (`linked`) of the operations that test it.
 */
module LinkedList {
  import opened Wrappers

  /** An intrusive list never reaches the same item twice. */
  ghost predicate Distinct<T(!new)>(s: seq<T>) {
    forall x :: multiset(s)[x] <= 1
  }

  /** `head->first`. */
  function First<T>(s: seq<T>): Option<T> {
    if s == [] then None else Some(s[0])
  }

  /** `head->last`. */
  function Last<T>(s: seq<T>): Option<T> {
    if s == [] then None else Some(s[|s| - 1])
  }

  /** The position of the first occurrence of `x`. */
  function IndexOf<T(==)>(s: seq<T>, x: T): (i: nat)
    requires x in s
    ensures i < |s| && s[i] == x && x !in s[..i]
  {
    if s[0] == x then 0
    else
      assert s[1..][..IndexOf(s[1..], x)] == s[1..1 + IndexOf(s[1..], x)];
      1 + IndexOf(s[1..], x)
  }

  lemma {:induction false} IndexOfUnique<T>(s: seq<T>, x: T, i: nat)
    requires i < |s| && s[i] == x && x !in s[..i]
    ensures IndexOf(s, x) == i
  {
    if i > 0 {
      assert s[0] in s[..i];
      assert s[1..][..i - 1] == s[1..i];
      assert s[..i] == [s[0]] + s[1..i];
      IndexOfUnique(s[1..], x, i - 1);
    }
  }

  /** The first occurrence of an item is no later than any occurrence of it. */
  lemma {:induction false} IndexOfFirst<T>(s: seq<T>, k: nat)
    requires k < |s|
    ensures IndexOf(s, s[k]) <= k
  {
    if s[0] != s[k] {
      assert s[1..][k - 1] == s[k];
      IndexOfFirst(s[1..], k - 1);
    }
  }

  /** The item just before `x`, or null when `x` is first. */
  function PrevOf<T(==)>(s: seq<T>, x: T): Option<T>
    requires x in s
  {
    var k := IndexOf(s, x);
    if k == 0 then None else Some(s[k - 1])
  }

  /** List_init: the list is empty, with null first and last and size 0. */
  function Init<T>(): (l: seq<T>)
    ensures |l| == 0 && First(l) == None && Last(l) == None
  {
    []
  }

  /** List_find: a linear scan from `first`. */
  method Find<T(==)>(l: seq<T>, item: T) returns (r: Option<T>)
    ensures r.Some? <==> item in l
    ensures r.Some? ==> r.value == item
  {
    var i := 0;
    while i < |l|
      invariant 0 <= i <= |l|
      invariant item !in l[..i]
    {
      if l[i] == item {
        return Some(item);
      }
      assert l[..i + 1] == l[..i] + [l[i]];
      i := i + 1;
    }
    assert l[..i] == l;
    return None;
  }

  /** Where List_insert puts the item: right after `prev`, or at the front. */
  function InsertPos<T(==)>(l: seq<T>, prev: Option<T>): (k: nat)
    requires prev.Some? ==> prev.value in l
    ensures k <= |l|
  {
    if prev.None? then 0 else IndexOf(l, prev.value) + 1
  }

  /**
   * List_insert. It refuses (returns null) an item whose own links are set;
   * otherwise the item must not be in the list yet and `prev`, when given,
   * must be (the checks the source makes under _LIST_DEBUG_).
   */
  function Insert<T(==,!new)>(l: seq<T>, prev: Option<T>, item: T, linked: bool): (r: Option<seq<T>>)
    requires !linked ==> item !in l
    requires !linked && prev.Some? ==> prev.value in l
    ensures r.None? <==> linked
    ensures r.Some? ==>
      var k := InsertPos(l, prev);
      |r.value| == |l| + 1 && r.value[k] == item &&
      r.value[..k] == l[..k] && r.value[k + 1..] == l[k..]
    ensures r.Some? && prev.None? ==> First(r.value) == Some(item)
    ensures r.Some? && Distinct(l) && prev == Last(l) ==> Last(r.value) == Some(item)
  {
    if linked then None
    else
      var k := InsertPos(l, prev);
      assert l == l[..k] + l[k..];
      LastIsLast(l);
      var r := l[..k] + [item] + l[k..];
      assert r[..k] == l[..k] && r[k + 1..] == l[k..];
      Some(r)
  }

  /** Inserting adds exactly the item, and keeps a list without repeats so. */
  lemma InsertAdds<T(!new)>(l: seq<T>, prev: Option<T>, item: T)
    requires item !in l
    requires prev.Some? ==> prev.value in l
    ensures multiset(Insert(l, prev, item, false).value) == multiset(l) + multiset{item}
    ensures Distinct(l) ==> Distinct(Insert(l, prev, item, false).value)
  {
    var k := InsertPos(l, prev);
    assert l == l[..k] + l[k..];
    assert Insert(l, prev, item, false).value == l[..k] + [item] + l[k..];
  }

  /** In a list without repeats, the last item is found at the last position. */
  lemma LastIsLast<T(!new)>(l: seq<T>)
    ensures Distinct(l) && l != [] ==> IndexOf(l, l[|l| - 1]) == |l| - 1
  {
    if Distinct(l) && l != [] {
      DistinctNotBefore(l, 0, |l| - 1);
      IndexOfUnique(l, l[|l| - 1], |l| - 1);
    }
  }

  /**
   * List_detach: the item must be a member (the check the source makes
   * under _LIST_DEBUG_). The item is removed and its links cleared, which
   * the model expresses by its absence from the result.
   */
  function Detach<T(==,!new)>(l: seq<T>, item: T): (r: seq<T>)
    requires item in l
    ensures |r| == |l| - 1
    ensures r == l[..IndexOf(l, item)] + l[IndexOf(l, item) + 1..]
    ensures item == l[0] ==> r == l[1..]
  {
    var k := IndexOf(l, item);
    l[..k] + l[k + 1..]
  }

  /** Detaching removes exactly the item, and from a list without repeats removes it altogether. */
  lemma DetachRemoves<T(!new)>(l: seq<T>, item: T)
    requires item in l
    ensures multiset(Detach(l, item)) == multiset(l) - multiset{item}
    ensures Distinct(l) ==> Distinct(Detach(l, item)) && item !in Detach(l, item)
  {
    var k := IndexOf(l, item);
    assert l == l[..k] + [l[k]] + l[k + 1..];
    assert Distinct(l) ==> multiset(l)[item] <= 1;
  }

  /**
   * List_pushBack: insert after `last`, which in a list without repeats
   * appends (PushBackIsInsertAfterLast).
   */
  function PushBack<T(==,!new)>(l: seq<T>, item: T, linked: bool): (r: Option<seq<T>>)
    requires !linked ==> item !in l
    ensures r.None? <==> linked
    ensures r.Some? ==> |r.value| == |l| + 1 && Last(r.value) == Some(item) && r.value[..|l|] == l
  {
    if linked then None else Some(l + [item])
  }

  /** Pushing at the back is inserting right after the current last item. */
  lemma PushBackIsInsertAfterLast<T(!new)>(l: seq<T>, item: T, linked: bool)
    requires Distinct(l) && (!linked ==> item !in l)
    ensures PushBack(l, item, linked) == Insert(l, Last(l), item, linked)
  {
    LastIsLast(l);
    if !linked {
      if l == [] {
        assert Insert(l, Last(l), item, linked).value == [item];
      } else {
        assert InsertPos(l, Last(l)) == |l|;
        assert l[..|l|] + [item] + l[|l|..] == l + [item];
      }
    }
  }

  /** List_pushFront: insert with a null `prev`. */
  function PushFront<T(==,!new)>(l: seq<T>, item: T, linked: bool): (r: Option<seq<T>>)
    requires !linked ==> item !in l
    ensures r.None? <==> linked
    ensures r.Some? ==> r.value == [item] + l
  {
    Insert(l, None, item, linked)
  }

  /** List_popFront: detach `first`, which must exist. */
  function PopFront<T(==,!new)>(l: seq<T>): (r: (T, seq<T>))
    requires |l| > 0
    ensures r.0 == l[0] && r.1 == l[1..]
  {
    (l[0], Detach(l, l[0]))
  }

  /** Inserting an unlinked item and detaching it again gives the list back. */
  lemma DetachAfterInsert<T(!new)>(l: seq<T>, prev: Option<T>, item: T)
    requires item !in l
    requires prev.Some? ==> prev.value in l
    ensures Detach(Insert(l, prev, item, false).value, item) == l
  {
    var r := Insert(l, prev, item, false).value;
    var k := InsertPos(l, prev);
    assert r[..k] == l[..k];
    assert item !in r[..k];
    IndexOfUnique(r, item, k);
    assert l == l[..k] + l[k..];
  }

  /** Detaching a member and inserting it after its old predecessor restores the list. */
  lemma {:induction false} InsertAfterDetach<T(!new)>(l: seq<T>, item: T)
    requires Distinct(l) && item in l
    ensures item !in Detach(l, item) && (PrevOf(l, item).Some? ==> PrevOf(l, item).value in Detach(l, item))
    ensures Insert(Detach(l, item), PrevOf(l, item), item, false) == Some(l)
  {
    DetachRemoves(l, item);
    var k := IndexOf(l, item);
    var d := Detach(l, item);
    assert d[..k] == l[..k] && d[k..] == l[k + 1..];
    if k > 0 {
      assert d[k - 1] == l[k - 1];
      DistinctNotBefore(l, 0, k - 1);
      assert l[0..k - 1] == d[..k - 1];
      IndexOfUnique(d, l[k - 1], k - 1);
    }
    assert InsertPos(d, PrevOf(l, item)) == k;
    assert Insert(d, PrevOf(l, item), item, false).value == d[..k] + [item] + d[k..];
    assert l == l[..k] + [item] + l[k + 1..];
  }

  // ---------------------------------------------------------------------
  // Merge sort (List_sort)
  // ---------------------------------------------------------------------

  /** Non-decreasing under the comparator `cmp(a, b) = key(a) - key(b)`. */
  ghost predicate SortedBy<T>(s: seq<T>, key: T -> int) {
    forall i, j :: 0 <= i < j < |s| ==> key(s[i]) <= key(s[j])
  }

  /** The subsequence of the items whose key is `k`, in list order. */
  function WithKey<T>(s: seq<T>, key: T -> int, k: int): seq<T> {
    if s == [] then []
    else (if key(s[0]) == k then [s[0]] else []) + WithKey(s[1..], key, k)
  }

  lemma {:induction false} WithKeyAppend<T>(a: seq<T>, b: seq<T>, key: T -> int, k: int)
    ensures WithKey(a + b, key, k) == WithKey(a, key, k) + WithKey(b, key, k)
  {
    if a == [] {
      assert a + b == b;
    } else {
      var head := if key(a[0]) == k then [a[0]] else [];
      assert (a + b)[0] == a[0] && (a + b)[1..] == a[1..] + b;
      assert WithKey(a + b, key, k) == head + WithKey(a[1..] + b, key, k);
      WithKeyAppend(a[1..], b, key, k);
      var x, y := WithKey(a[1..], key, k), WithKey(b, key, k);
      assert WithKey(a, key, k) == head + x;
      assert head + (x + y) == (head + x) + y;
    }
  }

  lemma {:induction false} WithKeyNone<T>(s: seq<T>, key: T -> int, k: int)
    requires forall i :: 0 <= i < |s| ==> key(s[i]) != k
    ensures WithKey(s, key, k) == []
  {
    if s != [] {
      WithKeyNone(s[1..], key, k);
    }
  }

  /** A stable sort keeps, for every key, the items with that key in their old order. */
  ghost predicate Stable<T>(r: seq<T>, l: seq<T>, key: T -> int) {
    forall k :: WithKey(r, key, k) == WithKey(l, key, k)
  }

  /** `r` is a stable sort of `l`: sorted, a permutation, and equal keys in their old order. */
  ghost predicate StableSortOf<T>(r: seq<T>, l: seq<T>, key: T -> int) {
    SortedBy(r, key) && multiset(r) == multiset(l) && Stable(r, l, key)
  }

  /** The items `WithKey` keeps are items of the list with that key. */
  lemma {:induction false} WithKeyMembers<T>(s: seq<T>, key: T -> int, k: int, x: T)
    requires x in WithKey(s, key, k)
    ensures x in s && key(x) == k
  {
    if s != [] {
      if x != s[0] || key(s[0]) != k {
        WithKeyMembers(s[1..], key, k, x);
      }
    }
  }

  /** Two sorted lists that agree on the items of every key are the same list. */
  lemma {:induction false} SortedKeysDetermine<T>(r1: seq<T>, r2: seq<T>, key: T -> int)
    requires SortedBy(r1, key) && SortedBy(r2, key)
    requires forall k :: WithKey(r1, key, k) == WithKey(r2, key, k)
    ensures r1 == r2
    decreases |r1| + |r2|
  {
    if r1 == [] || r2 == [] {
      if r1 != [] {
        WithKeyHead(r1, key, key(r1[0]), 0);
        assert false;
      } else if r2 != [] {
        WithKeyHead(r2, key, key(r2[0]), 0);
        assert false;
      }
    } else {
      var m1, m2 := key(r1[0]), key(r2[0]);
      assert r2[0] in WithKey(r1, key, m2) by {
        assert r2[0] in WithKey(r2, key, m2);
      }
      WithKeyMembers(r1, key, m2, r2[0]);
      assert r1[0] in WithKey(r2, key, m1) by {
        assert r1[0] in WithKey(r1, key, m1);
      }
      WithKeyMembers(r2, key, m1, r1[0]);
      assert m1 == m2;
      assert r1[0] == WithKey(r1, key, m1)[0] == WithKey(r2, key, m1)[0] == r2[0];
      forall k ensures WithKey(r1[1..], key, k) == WithKey(r2[1..], key, k) {
        var head := if key(r1[0]) == k then [r1[0]] else [];
        assert WithKey(r1, key, k) == head + WithKey(r1[1..], key, k);
        assert WithKey(r2, key, k) == head + WithKey(r2[1..], key, k);
        assert (head + WithKey(r1[1..], key, k))[|head|..] == WithKey(r1[1..], key, k);
        assert (head + WithKey(r2[1..], key, k))[|head|..] == WithKey(r2[1..], key, k);
      }
      SortedKeysDetermine(r1[1..], r2[1..], key);
      assert r1 == [r1[0]] + r1[1..] && r2 == [r2[0]] + r2[1..];
    }
  }

  /** A list has exactly one stable sort: List_sort's order is fully determined. */
  lemma StableSortUnique<T>(r1: seq<T>, r2: seq<T>, l: seq<T>, key: T -> int)
    requires StableSortOf(r1, l, key) && StableSortOf(r2, l, key)
    ensures r1 == r2
  {
    SortedKeysDetermine(r1, r2, key);
  }

  /** In a list without repeats, no item occurs before its own position. */
  lemma DistinctNotBefore<T(!new)>(l: seq<T>, lo: nat, i: nat)
    requires Distinct(l) && lo <= i < |l|
    ensures l[i] !in l[lo..i]
  {
    forall j | lo <= j < i ensures l[j] != l[i] {
      assert l == l[..j] + [l[j]] + l[j + 1..i] + [l[i]] + l[i + 1..];
      assert multiset(l)[l[j]] <= 1;
    }
  }

  /** A part of a list without repeats has none either. */
  lemma DistinctPart<T(!new)>(l: seq<T>, a: seq<T>, b: seq<T>)
    requires Distinct(l) && multiset(l) == multiset(a) + multiset(b)
    ensures Distinct(a) && Distinct(b)
  {
    forall x ensures multiset(a)[x] <= 1 && multiset(b)[x] <= 1 {
      assert multiset(l)[x] <= 1;
    }
  }

  /**
   * The split phase of List_sort: the first size/2 items are detached from
   * the front and pushed onto `left`, the remaining ones onto `right`.
   */
  method Split<T(==,!new)>(l: seq<T>) returns (left: seq<T>, right: seq<T>)
    requires Distinct(l)
    ensures left + right == l && |left| == |l| / 2
  {
    left, right := Init(), Init();
    var head := l;
    var middle := |l| / 2;
    var i := 0;
    while i < middle
      invariant 0 <= i <= middle
      invariant left == l[0..i] && head == l[i..]
    {
      var aux := head[0];
      MoveHead(l, 0, i, head, left);
      head := Detach(head, aux);
      left := PushBack(left, aux, false).value;
      i := i + 1;
    }
    var n := middle;
    while |head| > 0
      invariant middle <= n <= |l|
      invariant right == l[middle..n] && head == l[n..]
    {
      var aux := head[0];
      MoveHead(l, middle, n, head, right);
      head := Detach(head, aux);
      right := PushBack(right, aux, false).value;
      n := n + 1;
    }
    assert n == |l|;
    assert l[0..middle] + l[middle..n] == l;
  }

  /**
   * One step of the split loops: the head of the rest of the list is not
   * yet in the part built so far, and moving it across extends that part
   * by one item.
   */
  lemma MoveHead<T(!new)>(l: seq<T>, lo: nat, n: nat, head: seq<T>, part: seq<T>)
    requires Distinct(l) && lo <= n < |l|
    requires part == l[lo..n] && head == l[n..]
    ensures head != [] && head[0] == l[n] && head[0] !in part
    ensures Detach(head, head[0]) == l[n + 1..]
    ensures PushBack(part, head[0], false).value == l[lo..n + 1]
  {
    DistinctNotBefore(l, lo, n);
    assert l[n..][1..] == l[n + 1..];
    assert l[lo..n] + [l[n]] == l[lo..n + 1];
  }

  /** The invariant of the merge loops: the output and both inputs are sorted, and the output precedes both. */
  ghost predicate Inv<T>(r: seq<T>, a: seq<T>, b: seq<T>, key: T -> int) {
    SortedBy(r, key) && SortedBy(a, key) && SortedBy(b, key) &&
    (forall i, j :: 0 <= i < |r| && 0 <= j < |a| ==> key(r[i]) <= key(a[j])) &&
    (forall i, j :: 0 <= i < |r| && 0 <= j < |b| ==> key(r[i]) <= key(b[j]))
  }

  /** The merge loops lose no item of any key and keep each key's items in order. */
  ghost predicate KeysKept<T>(r: seq<T>, a: seq<T>, b: seq<T>, left: seq<T>, right: seq<T>, key: T -> int) {
    forall k :: WithKey(r, key, k) + WithKey(a, key, k) + WithKey(b, key, k)
                == WithKey(left, key, k) + WithKey(right, key, k)
  }

  /** Appending an item no smaller than the whole output keeps it sorted. */
  lemma SortedAppend<T>(r: seq<T>, x: T, key: T -> int)
    requires SortedBy(r, key)
    requires forall i :: 0 <= i < |r| ==> key(r[i]) <= key(x)
    ensures SortedBy(r + [x], key)
  {
  }

  /** Moving the head of `a` to the output keeps the merge invariant. */
  lemma InvStepLeft<T>(r: seq<T>, a: seq<T>, b: seq<T>, key: T -> int)
    requires |a| > 0 && Inv(r, a, b, key)
    requires |b| > 0 ==> key(a[0]) <= key(b[0])
    ensures Inv(r + [a[0]], a[1..], b, key)
  {
    SortedAppend(r, a[0], key);
  }

  /** Moving the head of `b`, strictly smaller than the head of `a`, keeps it too. */
  lemma InvStepRight<T>(r: seq<T>, a: seq<T>, b: seq<T>, key: T -> int)
    requires |b| > 0 && Inv(r, a, b, key)
    requires |a| > 0 ==> key(b[0]) < key(a[0])
    ensures Inv(r + [b[0]], a, b[1..], key)
  {
    SortedAppend(r, b[0], key);
  }

  lemma KeysStepLeft<T>(r: seq<T>, a: seq<T>, b: seq<T>, left: seq<T>, right: seq<T>, key: T -> int)
    requires |a| > 0 && KeysKept(r, a, b, left, right, key)
    ensures KeysKept(r + [a[0]], a[1..], b, left, right, key)
  {
    forall k ensures WithKey(r + [a[0]], key, k) + WithKey(a[1..], key, k) + WithKey(b, key, k)
                     == WithKey(left, key, k) + WithKey(right, key, k) {
      MoveKey(r, a, key, k);
      assert WithKey(r, key, k) + WithKey(a, key, k) + WithKey(b, key, k) == WithKey(left, key, k) + WithKey(right, key, k);
    }
  }

  /** Moving the head of `a` to the back of `r` keeps, per key, the items of both in order. */
  lemma MoveKey<T>(r: seq<T>, a: seq<T>, key: T -> int, k: int)
    requires |a| > 0
    ensures WithKey(r + [a[0]], key, k) + WithKey(a[1..], key, k) == WithKey(r, key, k) + WithKey(a, key, k)
  {
    WithKeyAppend(r, [a[0]], key, k);
    assert a == [a[0]] + a[1..];
    WithKeyAppend([a[0]], a[1..], key, k);
  }

  lemma KeysStepRight<T>(r: seq<T>, a: seq<T>, b: seq<T>, left: seq<T>, right: seq<T>, key: T -> int)
    requires |b| > 0 && KeysKept(r, a, b, left, right, key)
    requires SortedBy(a, key) && (|a| > 0 ==> key(b[0]) < key(a[0]))
    ensures KeysKept(r + [b[0]], a, b[1..], left, right, key)
  {
    forall k ensures WithKey(r + [b[0]], key, k) + WithKey(a, key, k) + WithKey(b[1..], key, k)
                     == WithKey(left, key, k) + WithKey(right, key, k) {
      MoveKeyPast(r, a, b, key, k);
      assert WithKey(r, key, k) + WithKey(a, key, k) + WithKey(b, key, k) == WithKey(left, key, k) + WithKey(right, key, k);
    }
  }

  /**
   * Moving the head of `b` to the back of `r`, past `a`, keeps every key's
   * items in order: `a` holds no item with the moved item's key.
   */
  lemma MoveKeyPast<T>(r: seq<T>, a: seq<T>, b: seq<T>, key: T -> int, k: int)
    requires |b| > 0 && SortedBy(a, key) && (|a| > 0 ==> key(b[0]) < key(a[0]))
    ensures WithKey(r + [b[0]], key, k) + WithKey(a, key, k) + WithKey(b[1..], key, k)
            == WithKey(r, key, k) + WithKey(a, key, k) + WithKey(b, key, k)
  {
    var r', a', bs, r0, b0 := WithKey(r + [b[0]], key, k), WithKey(a, key, k), WithKey(b[1..], key, k), WithKey(r, key, k), WithKey(b, key, k);
    MoveKey(r, b, key, k);
    if k == key(b[0]) {
      WithKeyNone(a, key, k);
      Regroup(r', a', bs, r0, b0);
    } else {
      OtherKey(r, b, key, k);
    }
  }

  /** Moving an item of another key changes neither list's items of key `k`. */
  lemma OtherKey<T>(r: seq<T>, b: seq<T>, key: T -> int, k: int)
    requires |b| > 0 && key(b[0]) != k
    ensures WithKey(r + [b[0]], key, k) == WithKey(r, key, k)
    ensures WithKey(b, key, k) == WithKey(b[1..], key, k)
  {
    WithKeyAppend(r, [b[0]], key, k);
    assert WithKey([b[0]], key, k) == [];
    assert b == [b[0]] + b[1..];
    WithKeyAppend([b[0]], b[1..], key, k);
  }

  /** An empty middle part lets two joined lists be regrouped. */
  lemma Regroup<T>(r': seq<T>, a': seq<T>, bs: seq<T>, r0: seq<T>, b0: seq<T>)
    requires r' + bs == r0 + b0 && a' == []
    ensures r' + a' + bs == r0 + a' + b0
  {
    assert r' + a' == r' && r0 + a' == r0;
  }

  /** Moving the head of `a` to the output keeps the items shared out among the three lists. */
  lemma TakeHead<T(!new)>(r: seq<T>, a: seq<T>, o: seq<T>, m: multiset<T>)
    requires |a| > 0 && multiset(r) + multiset(a) + multiset(o) == m
    requires forall x :: m[x] <= 1
    ensures a[0] !in r
    ensures multiset(r + [a[0]]) + multiset(a[1..]) + multiset(o) == m
  {
    assert a == [a[0]] + a[1..];
    assert m[a[0]] <= 1;
  }

  /**
   * The merge phase of List_sort: while both lists are non-empty, pop the
   * front of `left` when cmp(left.first, right.first) <= 0 and the front of
   * `right` otherwise; then append what remains of either.
   */
  method Merge<T(==,!new)>(left: seq<T>, right: seq<T>, key: T -> int) returns (r: seq<T>)
    requires SortedBy(left, key) && SortedBy(right, key) && Distinct(left + right)
    ensures SortedBy(r, key)
    ensures multiset(r) == multiset(left) + multiset(right)
    ensures forall k :: WithKey(r, key, k) == WithKey(left, key, k) + WithKey(right, key, k)
  {
    r := Init();
    var a, b := left, right;
    ghost var m := multiset(left + right);
    while |a| > 0 && |b| > 0
      invariant multiset(r) + multiset(a) + multiset(b) == m
      invariant Inv(r, a, b, key)
      invariant KeysKept(r, a, b, left, right, key)
      decreases |a| + |b|
    {
      r, a, b := MergeStep(r, a, b, left, right, key, m);
    }
    r := MergeRest(r, a, b, left, right, key, m);
  }

  /** One step of the merge loop: the head with the smaller key moves to the back of `r`. */
  method MergeStep<T(==,!new)>(r: seq<T>, a: seq<T>, b: seq<T>, left: seq<T>, right: seq<T>, key: T -> int, ghost m: multiset<T>)
    returns (r': seq<T>, a': seq<T>, b': seq<T>)
    requires |a| > 0 && |b| > 0
    requires multiset(r) + multiset(a) + multiset(b) == m && Distinct(left + right) && m == multiset(left + right)
    requires Inv(r, a, b, key) && KeysKept(r, a, b, left, right, key)
    ensures multiset(r') + multiset(a') + multiset(b') == m
    ensures Inv(r', a', b', key) && KeysKept(r', a', b', left, right, key)
    ensures |a'| + |b'| < |a| + |b|
  {
    var x;
    a', b' := a, b;
    if key(a[0]) - key(b[0]) <= 0 {
      InvStepLeft(r, a, b, key);
      KeysStepLeft(r, a, b, left, right, key);
      TakeHead(r, a, b, m);
      var p := PopFront(a);
      x, a' := p.0, p.1;
    } else {
      InvStepRight(r, a, b, key);
      KeysStepRight(r, a, b, left, right, key);
      TakeHead(r, b, a, m);
      var p := PopFront(b);
      x, b' := p.0, p.1;
    }
    r' := PushBack(r, x, false).value;
  }

  /** After the merge loop: whatever is left of either input goes to the back. */
  method MergeRest<T(==,!new)>(r: seq<T>, a: seq<T>, b: seq<T>, left: seq<T>, right: seq<T>, key: T -> int, ghost m: multiset<T>)
    returns (out: seq<T>)
    requires a == [] || b == []
    requires multiset(r) + multiset(a) + multiset(b) == m && Distinct(left + right) && m == multiset(left + right)
    requires Inv(r, a, b, key) && KeysKept(r, a, b, left, right, key)
    ensures SortedBy(out, key)
    ensures multiset(out) == multiset(left) + multiset(right)
    ensures forall k :: WithKey(out, key, k) == WithKey(left, key, k) + WithKey(right, key, k)
  {
    assert Distinct(r + a) && Distinct(r + a + b) by {
      assert multiset(r + a + b) == m;
      DistinctPart(r + a + b, r + a, b);
    }
    out := Drain(r, a);
    out := Drain(out, b);
    InvDone(r, a, b, key);
    forall k ensures WithKey(out, key, k) == WithKey(left, key, k) + WithKey(right, key, k) {
      WithKeyAppend(r, a, key, k);
      WithKeyAppend(r + a, b, key, k);
    }
  }

  /** When one input is used up, the output followed by both inputs is sorted. */
  lemma InvDone<T>(r: seq<T>, a: seq<T>, b: seq<T>, key: T -> int)
    requires Inv(r, a, b, key) && (a == [] || b == [])
    ensures SortedBy(r + a + b, key)
  {
    if a == [] {
      assert r + a + b == r + b;
    } else {
      assert r + a + b == r + a;
    }
  }

  /** The last two loops of List_sort: pop every remaining item of `a` onto the back of `r`. */
  method Drain<T(==,!new)>(r: seq<T>, a: seq<T>) returns (out: seq<T>)
    requires Distinct(r + a)
    ensures out == r + a
  {
    out := r;
    var rest := a;
    while |rest| > 0
      invariant out + rest == r + a
    {
      DrainStep(out, rest, r + a);
      var p := PopFront(rest);
      out, rest := PushBack(out, p.0, false).value, p.1;
    }
  }

  /** The head of the rest is not yet in the output, and moving it keeps the concatenation. */
  lemma DrainStep<T(!new)>(out: seq<T>, rest: seq<T>, all: seq<T>)
    requires |rest| > 0 && out + rest == all && Distinct(all)
    ensures rest[0] !in out && (out + [rest[0]]) + rest[1..] == all
  {
    DistinctNotBefore(all, 0, |out|);
    assert all[..|out|] == out;
    assert all[|out|] == rest[0];
    assert rest == [rest[0]] + rest[1..];
  }

  /**
   * List_sort: lists of size at most one are left alone; otherwise split,
   * sort both halves recursively and merge. The result is a sorted,
   * stable permutation of the list.
   */
  method Sort<T(==,!new)>(l: seq<T>, key: T -> int) returns (r: seq<T>)
    requires Distinct(l)
    ensures |l| <= 1 ==> r == l
    ensures SortedBy(r, key)
    ensures multiset(r) == multiset(l)
    ensures Stable(r, l, key)
    decreases |l|
  {
    if |l| <= 1 {
      return l;
    }
    var left, right := Split(l);
    DistinctPart(l, left, right);
    ghost var gl, gr := left, right;
    left := Sort(left, key);
    right := Sort(right, key);
    assert Distinct(left + right) by {
      assert multiset(left + right) == multiset(l);
    }
    r := Merge(left, right, key);
    forall k ensures WithKey(r, key, k) == WithKey(l, key, k) {
      WithKeyAppend(gl, gr, key, k);
    }
  }

  /**
   * The head of a stably sorted list is the earliest item of the old list
   * among those with the smallest key.
   */
  lemma SortedHeadIsFirstMinimum<T>(r: seq<T>, l: seq<T>, key: T -> int)
    requires |l| > 0 && SortedBy(r, key) && multiset(r) == multiset(l) && Stable(r, l, key)
    ensures r[0] in l
    ensures forall x :: x in l ==> key(r[0]) <= key(x)
    ensures forall j :: 0 <= j < IndexOf(l, r[0]) ==> key(l[j]) > key(r[0])
  {
    assert multiset(l)[l[0]] > 0;
    assert r[0] in multiset(r);
    forall x | x in l ensures key(r[0]) <= key(x) {
      assert x in multiset(r);
      var i :| 0 <= i < |r| && r[i] == x;
    }
    var m := key(r[0]);
    var k := IndexOf(l, r[0]);
    var j0 := FirstWithKey(l, key, m);
    assert WithKey(r, key, m) == [r[0]] + WithKey(r[1..], key, m);
    WithKeyHead(l, key, m, j0);
    assert l[j0] == r[0];
    assert forall y :: y in l[..j0] ==> key(y) != m;
    IndexOfUnique(l, r[0], j0);
    forall j | 0 <= j < k ensures key(l[j]) > m {
      assert l[j] in l;
    }
  }

  /** The index of the first item with key `k`. */
  function FirstWithKey<T>(s: seq<T>, key: T -> int, k: int): (j: nat)
    requires exists i :: 0 <= i < |s| && key(s[i]) == k
    ensures j < |s| && key(s[j]) == k && forall i :: 0 <= i < j ==> key(s[i]) != k
  {
    if key(s[0]) == k then 0
    else
      assert exists i :: 0 <= i < |s[1..]| && key(s[1..][i]) == k by {
        var i :| 0 <= i < |s| && key(s[i]) == k;
        assert key(s[1..][i - 1]) == k;
      }
      1 + FirstWithKey(s[1..], key, k)
  }

  lemma {:induction false} WithKeyHead<T>(s: seq<T>, key: T -> int, k: int, j: nat)
    requires j < |s| && key(s[j]) == k && forall i :: 0 <= i < j ==> key(s[i]) != k
    ensures WithKey(s, key, k) != [] && WithKey(s, key, k)[0] == s[j]
  {
    if j > 0 {
      WithKeyHead(s[1..], key, k, j - 1);
    }
  }
}

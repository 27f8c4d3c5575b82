/**
 * `slice::sort_by_key` with a `String` key: a stable sort of a vector by the
 * key of each element. The element type is left abstract; only the key
 * function looks inside it.
 */
module Sorting {
  import opened KeyOrder

  /** The keys do not decrease from left to right. */
  predicate Sorted<T>(s: seq<T>, key: T -> string) {
    forall i, j :: 0 <= i < j < |s| ==> LessEq(key(s[i]), key(s[j]))
  }

  /** Keys strictly ascend. */
  predicate Ascending<T>(s: seq<T>, key: T -> string) {
    forall i, j :: 0 <= i < j < |s| ==> Less(key(s[i]), key(s[j]))
  }

  /** No two elements share a key. */
  predicate DistinctKeys<T>(s: seq<T>, key: T -> string) {
    forall i, j :: 0 <= i < j < |s| ==> key(s[i]) != key(s[j])
  }

  /** Inserts `x` into `s` from the right, after every element whose key is not greater. */
  function Insert<T>(s: seq<T>, x: T, key: T -> string): (r: seq<T>)
    ensures |r| == |s| + 1
    decreases |s|
  {
    if s == [] || !Less(key(x), key(s[|s| - 1])) then s + [x]
    else Insert(s[..|s| - 1], x, key) + [s[|s| - 1]]
  }

  /**
   * The stable sort by key. Insertion from the right keeps elements with
   * equal keys in their original order, which is what `sort_by_key`
   * guarantees.
   */
  function SortByKey<T>(s: seq<T>, key: T -> string): (r: seq<T>)
    ensures |r| == |s|
    decreases |s|
  {
    if s == [] then [] else Insert(SortByKey(s[..|s| - 1], key), s[|s| - 1], key)
  }

  lemma {:induction false} InsertPermutation<T>(s: seq<T>, x: T, key: T -> string)
    ensures multiset(Insert(s, x, key)) == multiset(s) + multiset{x}
    decreases |s|
  {
    if s != [] && Less(key(x), key(s[|s| - 1])) {
      var init := s[..|s| - 1];
      assert s == init + [s[|s| - 1]];
      InsertPermutation(init, x, key);
    }
  }

  /** `SortByKey` only reorders: the result holds the same elements, each as often. */
  lemma {:induction false} SortByKeyPermutation<T>(s: seq<T>, key: T -> string)
    ensures multiset(SortByKey(s, key)) == multiset(s)
    decreases |s|
  {
    if s != [] {
      var init := s[..|s| - 1];
      assert s == init + [s[|s| - 1]];
      SortByKeyPermutation(init, key);
      InsertPermutation(SortByKey(init, key), s[|s| - 1], key);
    }
  }

  lemma {:induction false} InsertSorted<T>(s: seq<T>, x: T, key: T -> string)
    requires Sorted(s, key)
    ensures Sorted(Insert(s, x, key), key)
    decreases |s|
  {
    if s == [] {
    } else if !Less(key(x), key(s[|s| - 1])) {
      forall i | 0 <= i < |s| ensures LessEq(key(s[i]), key(x)) {
        LessIrreflexive(key(s[i]));
        LessEqTransitive(key(s[i]), key(s[|s| - 1]), key(x));
      }
    } else {
      var init := s[..|s| - 1];
      var last := s[|s| - 1];
      InsertSorted(init, x, key);
      InsertPermutation(init, x, key);
      var p := Insert(init, x, key);
      forall i | 0 <= i < |p| ensures LessEq(key(p[i]), key(last)) {
        assert p[i] in multiset(p);
        if p[i] == x {
          LessImpliesLessEq(key(x), key(last));
        } else {
          assert p[i] in multiset(init);
          var j :| 0 <= j < |init| && init[j] == p[i];
          assert init[j] == s[j];
        }
      }
    }
  }

  /** `SortByKey` orders the elements by ascending key. */
  lemma {:induction false} SortByKeySorted<T>(s: seq<T>, key: T -> string)
    ensures Sorted(SortByKey(s, key), key)
    decreases |s|
  {
    if s != [] {
      SortByKeySorted(s[..|s| - 1], key);
      InsertSorted(SortByKey(s[..|s| - 1], key), s[|s| - 1], key);
    }
  }

  /** A sorted sequence with distinct keys is strictly ascending. */
  lemma SortedDistinctAscending<T>(s: seq<T>, key: T -> string)
    requires Sorted(s, key) && DistinctKeys(s, key)
    ensures Ascending(s, key)
  {
    forall i, j | 0 <= i < j < |s| ensures Less(key(s[i]), key(s[j])) {
      LessTotal(key(s[i]), key(s[j]));
    }
  }

  /** An element that occurs at least twice sits at two different positions. */
  lemma {:induction false} TwiceAtTwoPositions<T>(s: seq<T>, x: T)
    requires multiset(s)[x] >= 2
    ensures exists p, q :: 0 <= p < q < |s| && s[p] == x && s[q] == x
    decreases |s|
  {
    assert s == [s[0]] + s[1..];
    if s[0] == x {
      assert x in multiset(s[1..]);
      var q :| 0 <= q < |s[1..]| && s[1..][q] == x;
      assert s[q + 1] == x;
    } else {
      TwiceAtTwoPositions(s[1..], x);
      var p, q :| 0 <= p < q < |s[1..]| && s[1..][p] == x && s[1..][q] == x;
      assert s[p + 1] == x && s[q + 1] == x;
    }
  }

  /** Reordering keeps the keys distinct. */
  lemma DistinctKeysPermutation<T>(s: seq<T>, t: seq<T>, key: T -> string)
    requires DistinctKeys(s, key) && multiset(s) == multiset(t)
    ensures DistinctKeys(t, key)
  {
    forall i, j | 0 <= i < j < |t| ensures key(t[i]) != key(t[j]) {
      if key(t[i]) == key(t[j]) {
        assert t[i] in multiset(s) && t[j] in multiset(s);
        if t[i] == t[j] {
          assert t == t[..j] + t[j..];
          assert t[i] in multiset(t[..j]) && t[j] in multiset(t[j..]);
          TwiceAtTwoPositions(s, t[i]);
        }
      }
    }
  }

  /** Two sorted arrangements of the same elements with distinct keys start alike. */
  lemma SortedSameHead<T>(s: seq<T>, t: seq<T>, key: T -> string)
    requires Sorted(s, key) && Sorted(t, key) && DistinctKeys(s, key)
    requires multiset(s) == multiset(t) && s != []
    ensures t != [] && s[0] == t[0]
  {
    assert s[0] in multiset(t);
    var j :| 0 <= j < |t| && t[j] == s[0];
    assert t[0] in multiset(s);
    var i :| 0 <= i < |s| && s[i] == t[0];
    if i != 0 && j != 0 {
      assert LessEq(key(s[0]), key(s[i])) && LessEq(key(t[0]), key(t[j]));
      LessEqAntisymmetric(key(s[0]), key(t[0]));
    }
  }

  lemma SortedDistinctTail<T>(s: seq<T>, key: T -> string)
    requires Sorted(s, key) && DistinctKeys(s, key) && s != []
    ensures Sorted(s[1..], key) && DistinctKeys(s[1..], key)
  {
    var u := s[1..];
    forall i, j | 0 <= i < j < |u| ensures LessEq(key(u[i]), key(u[j])) && key(u[i]) != key(u[j]) {
      assert u[i] == s[i + 1] && u[j] == s[j + 1];
    }
  }

  lemma SameTail<T>(s: seq<T>, t: seq<T>)
    requires multiset(s) == multiset(t) && s != [] && t != [] && s[0] == t[0]
    ensures multiset(s[1..]) == multiset(t[1..])
  {
    assert s == [s[0]] + s[1..] && t == [t[0]] + t[1..];
    assert multiset(s[1..]) == multiset(s) - multiset{s[0]};
    assert multiset(t[1..]) == multiset(t) - multiset{t[0]};
  }

  /** A sorted arrangement of elements with distinct keys is unique. */
  lemma {:induction false} SortedUnique<T>(s: seq<T>, t: seq<T>, key: T -> string)
    requires Sorted(s, key) && Sorted(t, key) && DistinctKeys(s, key) && DistinctKeys(t, key)
    requires multiset(s) == multiset(t)
    ensures s == t
    decreases |s|
  {
    assert |s| == |multiset(s)| == |t|;
    if s != [] {
      SortedSameHead(s, t, key);
      SameTail(s, t);
      SortedDistinctTail(s, key);
      SortedDistinctTail(t, key);
      SortedUnique(s[1..], t[1..], key);
      assert s == [s[0]] + s[1..] && t == [t[0]] + t[1..];
    }
  }

  /**
   * With distinct keys the sorted order depends only on which elements there
   * are, not on the order they come in.
   */
  lemma SortByKeyOrderIrrelevant<T>(s: seq<T>, t: seq<T>, key: T -> string)
    requires DistinctKeys(s, key) && multiset(s) == multiset(t)
    ensures SortByKey(s, key) == SortByKey(t, key)
  {
    SortByKeySorted(s, key);
    SortByKeySorted(t, key);
    SortByKeyPermutation(s, key);
    SortByKeyPermutation(t, key);
    DistinctKeysPermutation(s, SortByKey(s, key), key);
    DistinctKeysPermutation(s, SortByKey(t, key), key);
    SortedUnique(SortByKey(s, key), SortByKey(t, key), key);
  }

  /**
   * Where `Insert` puts `x`: after the prefix `s[..j]` whose last key is not
   * greater than `x`'s, and before the rest, whose keys are all greater.
   */
  lemma {:induction false} InsertPosition<T>(s: seq<T>, x: T, key: T -> string, j: nat)
    requires j <= |s| && (j == 0 || !Less(key(x), key(s[j - 1])))
    requires forall k :: j <= k < |s| ==> Less(key(x), key(s[k]))
    ensures Insert(s, x, key) == s[..j] + [x] + s[j..]
    decreases |s|
  {
    if j < |s| {
      var init := s[..|s| - 1];
      var last := s[|s| - 1];
      assert Insert(s, x, key) == Insert(init, x, key) + [last];
      assert init[..j] == s[..j];
      assert forall k :: j <= k < |init| ==> Less(key(x), key(init[k]));
      InsertPosition(init, x, key, j);
      assert s[j..] == init[j..] + [last];
      var front, back := init[..j] + [x], init[j..];
      assert (front + back) + [last] == front + (back + [last]);
    }
  }

  /** Sorting one more element inserts it into the sorted prefix. */
  lemma SortStep<T>(s: seq<T>, i: nat, key: T -> string)
    requires i < |s|
    ensures SortByKey(s[..i + 1], key) == Insert(SortByKey(s[..i], key), s[i], key)
  {
    assert s[..i + 1][..i] == s[..i];
  }

  lemma SplitAround<T>(p: seq<T>, q: seq<T>)
    requires q != []
    ensures (p + q)[..|p|] == p && (p + q)[|p|] == q[0] && (p + q)[|p| + 1..] == q[1..]
  {
  }

  /** What sits at index `k` once `x` is placed at `j` in `s` and `rest` follows. */
  lemma ShiftedAt<T>(s: seq<T>, x: T, rest: seq<T>, j: nat, k: nat)
    requires j <= |s| && k < |s| + 1 + |rest|
    ensures (s[..j] + [x] + s[j..] + rest)[k]
      == if k < j then s[k] else if k == j then x else if k <= |s| then s[k - 1] else rest[k - |s| - 1]
  {
  }

  /**
   * One pass of the insertion sort: the element at `i` moves left past every
   * element of the sorted prefix `a[..i]` with a greater key; the elements
   * after `i` stay where they are.
   */
  method InsertInPlace<T>(a: array<T>, i: nat, key: T -> string)
    requires i < a.Length
    modifies a
    ensures a[..] == Insert(old(a[..])[..i], old(a[..])[i], key) + old(a[..])[i + 1..]
  {
    ghost var s := a[..i];
    ghost var rest := a[i + 1..];
    assert a[..][..i] == s && a[..][i + 1..] == rest;
    var x := a[i];
    var j := i;
    while j > 0 && Less(key(x), key(a[j - 1]))
      invariant 0 <= j <= i
      invariant forall k :: 0 <= k < j ==> a[k] == s[k]
      invariant forall k :: j < k <= i ==> a[k] == s[k - 1]
      invariant forall k :: i < k < a.Length ==> a[k] == rest[k - i - 1]
      invariant forall k :: j <= k < i ==> Less(key(x), key(s[k]))
    {
      a[j] := a[j - 1];
      j := j - 1;
    }
    a[j] := x;
    InsertPosition(s, x, key, j);
    ghost var target := s[..j] + [x] + s[j..] + rest;
    forall k | 0 <= k < a.Length ensures a[k] == target[k] {
      ShiftedAt(s, x, rest, j, k);
    }
    assert a[..] == target;
  }

  /**
   * One pass of the sorting loop: inserting element `i` into the sorted
   * prefix of `before` sorts one more element of `orig`.
   */
  lemma SortLoopStep<T>(orig: seq<T>, i: nat, before: seq<T>, after: seq<T>, key: T -> string)
    requires i < |orig|
    requires before == SortByKey(orig[..i], key) + orig[i..]
    requires after == Insert(before[..i], before[i], key) + before[i + 1..]
    ensures after == SortByKey(orig[..i + 1], key) + orig[i + 1..]
  {
    var sorted := SortByKey(orig[..i], key);
    SplitAround(sorted, orig[i..]);
    assert orig[i..][1..] == orig[i + 1..];
    SortStep(orig, i, key);
  }

  /** `sort_by_key`, in place, as a stable insertion sort. */
  method SortInPlace<T>(a: array<T>, key: T -> string)
    modifies a
    ensures a[..] == SortByKey(old(a[..]), key)
  {
    ghost var orig := a[..];
    var i := 0;
    while i < a.Length
      invariant 0 <= i <= a.Length
      invariant a[..] == SortByKey(orig[..i], key) + orig[i..]
    {
      ghost var before := a[..];
      InsertInPlace(a, i, key);
      SortLoopStep(orig, i, before, a[..], key);
      i := i + 1;
    }
    assert orig[..a.Length] == orig;
  }
}

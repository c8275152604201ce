/** A stable sort by an integer key, written as the insertion sort that
    defines it. Both client and server sort stably: the client's
    `Array.prototype.sort` (required to be stable since ECMAScript 2019) and
    Python's `sorted` (stable, also with `reverse=True`, which is the same as
    sorting stably by the negated key). A stable sort of a sequence by a key
    is unique, so this one definition stands for all of them; the lemmas
    below prove the three properties that characterise it. */
module Sorting {

  /** Places `x` after the last element of `s` whose key is not greater than
      its own, scanning from the right as an insertion sort shifts. */
  function Insert<T>(s: seq<T>, x: T, key: T -> int): seq<T>
  {
    if s == [] then [x]
    else if key(s[|s| - 1]) > key(x) then Insert(s[..|s| - 1], x, key) + [s[|s| - 1]]
    else s + [x]
  }

  /** Stable ascending sort of `s` by `key`. */
  function SortByKey<T>(s: seq<T>, key: T -> int): seq<T>
  {
    if s == [] then []
    else Insert(SortByKey(s[..|s| - 1], key), s[|s| - 1], key)
  }

  ghost predicate SortedByKey<T>(s: seq<T>, key: T -> int) {
    forall i, j :: 0 <= i < j < |s| ==> key(s[i]) <= key(s[j])
  }

  /** The elements of `s` whose key is `k`, in their order in `s`. */
  function WithKey<T>(s: seq<T>, key: T -> int, k: int): seq<T>
  {
    if s == [] then []
    else WithKey(s[..|s| - 1], key, k) + (if key(s[|s| - 1]) == k then [s[|s| - 1]] else [])
  }

  /** Stability: every group of equal-key elements keeps its relative order. */
  ghost predicate SameGroups<T>(s: seq<T>, t: seq<T>, key: T -> int) {
    forall k :: WithKey(s, key, k) == WithKey(t, key, k)
  }

  lemma {:induction false} WithKeyAppend<T>(s: seq<T>, t: seq<T>, key: T -> int, k: int)
    ensures WithKey(s + t, key, k) == WithKey(s, key, k) + WithKey(t, key, k)
    decreases |t|
  {
    if t == [] {
      assert s + t == s;
    } else {
      var t' := t[..|t| - 1];
      assert (s + t)[..|s + t| - 1] == s + t';
      WithKeyAppend(s, t', key, k);
    }
  }

  lemma {:induction false} InsertPermutes<T>(s: seq<T>, x: T, key: T -> int)
    ensures multiset(Insert(s, x, key)) == multiset(s) + multiset{x}
    decreases |s|
  {
    if s != [] && key(s[|s| - 1]) > key(x) {
      InsertPermutes(s[..|s| - 1], x, key);
      assert s == s[..|s| - 1] + [s[|s| - 1]];
    }
  }

  lemma {:induction false} InsertSorted<T>(s: seq<T>, x: T, key: T -> int)
    requires SortedByKey(s, key)
    ensures SortedByKey(Insert(s, x, key), key)
    decreases |s|
  {
    if s != [] && key(s[|s| - 1]) > key(x) {
      var s', last := s[..|s| - 1], s[|s| - 1];
      InsertSorted(s', x, key);
      InsertPermutes(s', x, key);
      var r' := Insert(s', x, key);
      forall i | 0 <= i < |r'| ensures key(r'[i]) <= key(last) {
        assert r'[i] in multiset(r');
        if r'[i] != x {
          assert r'[i] in multiset(s');
          var j :| 0 <= j < |s'| && s'[j] == r'[i];
          assert s[j] == s'[j];
        }
      }
    }
  }

  lemma {:induction false} InsertGroups<T>(s: seq<T>, x: T, key: T -> int, k: int)
    ensures WithKey(Insert(s, x, key), key, k) == WithKey(s + [x], key, k)
    decreases |s|
  {
    if s != [] && key(s[|s| - 1]) > key(x) {
      var s', last := s[..|s| - 1], s[|s| - 1];
      var ins := Insert(s', x, key);
      var wl, wx := WithKey([last], key, k), WithKey([x], key, k);
      assert s == s' + [last];
      WithKeySingle(last, key, k);
      WithKeySingle(x, key, k);
      assert wl + wx == wx + wl;
      InsertGroups(s', x, key, k);
      WithKeyAppend(ins, [last], key, k);
      WithKeyAppend(s', [x], key, k);
      WithKeyAppend(s, [x], key, k);
      WithKeyAppend(s', [last], key, k);
      calc {
        WithKey(Insert(s, x, key), key, k);
        WithKey(ins + [last], key, k);
        WithKey(s', key, k) + wx + wl;
        WithKey(s', key, k) + wl + wx;
        WithKey(s + [x], key, k);
      }
    }
  }

  lemma WithKeySingle<T>(y: T, key: T -> int, k: int)
    ensures WithKey([y], key, k) == if key(y) == k then [y] else []
  {
    assert [y][..0] == [];
  }

  /** The sort rearranges: same elements, same number of each. */
  lemma {:induction false} SortPermutes<T>(s: seq<T>, key: T -> int)
    ensures multiset(SortByKey(s, key)) == multiset(s)
    ensures |SortByKey(s, key)| == |s|
    decreases |s|
  {
    if s != [] {
      var s' := s[..|s| - 1];
      SortPermutes(s', key);
      InsertPermutes(SortByKey(s', key), s[|s| - 1], key);
      assert s == s' + [s[|s| - 1]];
      assert |SortByKey(s, key)| == |multiset(SortByKey(s, key))| == |multiset(s)| == |s|;
    }
  }

  /** Hence the sort keeps exactly the elements it was given. */
  lemma SortKeepsMembers<T>(s: seq<T>, key: T -> int)
    ensures forall x :: x in SortByKey(s, key) <==> x in s
  {
    SortPermutes(s, key);
    forall x ensures x in SortByKey(s, key) <==> x in s {
      assert x in SortByKey(s, key) <==> x in multiset(SortByKey(s, key));
      assert x in s <==> x in multiset(s);
    }
  }

  /** The result has non-decreasing keys. */
  lemma {:induction false} SortSorts<T>(s: seq<T>, key: T -> int)
    ensures SortedByKey(SortByKey(s, key), key)
    decreases |s|
  {
    if s != [] {
      SortSorts(s[..|s| - 1], key);
      InsertSorted(SortByKey(s[..|s| - 1], key), s[|s| - 1], key);
    }
  }

  /** The sort is stable: elements with equal keys keep their input order. */
  lemma {:induction false} SortIsStable<T>(s: seq<T>, key: T -> int)
    ensures SameGroups(SortByKey(s, key), s, key)
    decreases |s|
  {
    if s != [] {
      var s', last := s[..|s| - 1], s[|s| - 1];
      SortIsStable(s', key);
      forall k ensures WithKey(SortByKey(s, key), key, k) == WithKey(s, key, k) {
        InsertGroups(SortByKey(s', key), last, key, k);
        WithKeyAppend(SortByKey(s', key), [last], key, k);
        WithKeyAppend(s', [last], key, k);
        assert s == s' + [last];
      }
    }
  }

  /** When every key is the same, nothing moves. */
  lemma {:induction false} SortConstantKey<T>(s: seq<T>, key: T -> int)
    requires forall i, j :: 0 <= i < |s| && 0 <= j < |s| ==> key(s[i]) == key(s[j])
    ensures SortByKey(s, key) == s
    decreases |s|
  {
    if s != [] {
      var s' := s[..|s| - 1];
      SortConstantKey(s', key);
      assert s == s' + [s[|s| - 1]];
    }
  }

  lemma InsertStep<T>(sorted: seq<T>, x: T, j: nat, key: T -> int)
    requires 0 < j <= |sorted|
    requires key(sorted[j - 1]) > key(x)
    ensures Insert(sorted[..j], x, key) + sorted[j..] == Insert(sorted[..j - 1], x, key) + sorted[j - 1..]
  {
    assert sorted[..j][..j - 1] == sorted[..j - 1];
    assert sorted[j - 1..] == [sorted[j - 1]] + sorted[j..];
  }

  lemma InsertDone<T>(sorted: seq<T>, x: T, j: nat, key: T -> int)
    requires j <= |sorted|
    requires j > 0 ==> key(sorted[j - 1]) <= key(x)
    ensures Insert(sorted[..j], x, key) == sorted[..j] + [x]
  {
  }

  /** The array during one pass: the sorted prefix with `x` standing at
      position `j`, then the part not yet visited. */
  function Layout<T>(sorted: seq<T>, x: T, j: nat, rest: seq<T>): seq<T>
    requires j <= |sorted|
  {
    sorted[..j] + [x] + sorted[j..] + rest
  }

  lemma LayoutAt<T>(sorted: seq<T>, x: T, j: nat, rest: seq<T>)
    requires j <= |sorted|
    ensures |Layout(sorted, x, j, rest)| == |sorted| + 1 + |rest|
    ensures Layout(sorted, x, j, rest)[j] == x
    ensures j > 0 ==> Layout(sorted, x, j, rest)[j - 1] == sorted[j - 1]
    ensures Layout(sorted, x, j, rest)[..|sorted| + 1] == sorted[..j] + [x] + sorted[j..]
    ensures Layout(sorted, x, j, rest)[|sorted| + 1..] == rest
  {
  }

  /** Swapping `x` with its left neighbour moves it one place left. */
  lemma LayoutSwap<T>(sorted: seq<T>, x: T, j: nat, rest: seq<T>)
    requires 0 < j <= |sorted|
    ensures Layout(sorted, x, j, rest)[j := sorted[j - 1]][j - 1 := x] == Layout(sorted, x, j - 1, rest)
  {
    var l, l' := Layout(sorted, x, j, rest)[j := sorted[j - 1]][j - 1 := x], Layout(sorted, x, j - 1, rest);
    LayoutAt(sorted, x, j, rest);
    LayoutAt(sorted, x, j - 1, rest);
    forall k | 0 <= k < |l| ensures l[k] == l'[k] {
      if k < j - 1 {
        assert l[k] == sorted[k] == l'[k];
      } else if j < k <= |sorted| {
        assert l[k] == sorted[k - 1] == l'[k];
      } else if k > |sorted| {
        assert l[k] == rest[k - |sorted| - 1] == l'[k];
      }
    }
  }

  lemma SortPrefixStep<T>(s: seq<T>, i: nat, key: T -> int)
    requires i < |s|
    ensures SortByKey(s[..i + 1], key) == Insert(SortByKey(s[..i], key), s[i], key)
  {
    assert s[..i + 1][..i] == s[..i];
  }

  /** `compare` orders the elements of class `inClass` by `key`: its sign is
      the sign of the key difference. */
  ghost predicate ComparesByKey<T(!new)>(compare: (T, T) -> int, key: T -> int, inClass: T -> bool) {
    forall x, y :: inClass(x) && inClass(y) ==> compare(x, y) == key(x) - key(y)
  }

  ghost predicate AllIn<T>(a: seq<T>, inClass: T -> bool) {
    forall k :: 0 <= k < |a| ==> inClass(a[k])
  }

  /** A layout of class elements holds only class elements. */
  lemma AllInLayout<T>(sorted: seq<T>, x: T, j: nat, rest: seq<T>, inClass: T -> bool)
    requires j <= |sorted| && AllIn(sorted, inClass) && AllIn(rest, inClass) && inClass(x)
    ensures AllIn(Layout(sorted, x, j, rest), inClass)
  {
    var b := Layout(sorted, x, j, rest);
    forall k | 0 <= k < |b| ensures inClass(b[k]) {
      if k < j {
        assert b[k] == sorted[k];
      } else if j < k <= |sorted| {
        assert b[k] == sorted[k - 1];
      } else if k > |sorted| {
        assert b[k] == rest[k - |sorted| - 1];
      }
    }
  }

  /** One pass of the insertion sort: `a[i]` moves left past every element
      of the sorted prefix that `compare` puts after it. */
  method ShiftInsert<T(!new)>(a: array<T>, i: nat, compare: (T, T) -> int, ghost key: T -> int, ghost inClass: T -> bool)
    requires i < a.Length
    requires AllIn(a[..], inClass) && ComparesByKey(compare, key, inClass)
    modifies a
    ensures a[..i + 1] == Insert(old(a[..i]), old(a[i]), key)
    ensures a[i + 1..] == old(a[i + 1..])
    ensures AllIn(a[..], inClass)
  {
    var x := a[i];
    ghost var sorted := a[..i];
    ghost var rest := a[i + 1..];
    LayoutSplit(a[..], i, inClass);
    var j := i;
    assert sorted[..j] == sorted && sorted[j..] == [];
    while j > 0 && compare(a[j - 1], x) > 0
      invariant 0 <= j <= i
      invariant a[..] == Layout(sorted, x, j, rest)
      invariant Insert(sorted, x, key) == Insert(sorted[..j], x, key) + sorted[j..]
    {
      LayoutAt(sorted, x, j, rest);
      assert a[j - 1] == sorted[j - 1] && inClass(sorted[j - 1]);
      InsertStep(sorted, x, j, key);
      LayoutSwap(sorted, x, j, rest);
      a[j] := a[j - 1];
      a[j - 1] := x;
      j := j - 1;
    }
    LayoutAt(sorted, x, j, rest);
    if j > 0 {
      assert a[j - 1] == sorted[j - 1] && inClass(sorted[j - 1]);
    }
    LayoutDone(sorted, x, j, rest, key, inClass);
  }

  /** Before the pass: the array is the sorted prefix with `a[i]` standing
      at position i, and every part is in the class. */
  lemma LayoutSplit<T>(s: seq<T>, i: nat, inClass: T -> bool)
    requires i < |s| && AllIn(s, inClass)
    ensures s == Layout(s[..i], s[i], i, s[i + 1..])
    ensures inClass(s[i]) && AllIn(s[..i], inClass) && AllIn(s[i + 1..], inClass)
  {
    var rest := s[i + 1..];
    forall k | 0 <= k < |rest| ensures inClass(rest[k]) {
      assert rest[k] == s[i + 1 + k];
    }
  }

  /** After the pass: `x` stopped at `j`, so the first `|sorted| + 1`
      elements are the insertion and the rest is untouched. */
  lemma LayoutDone<T>(sorted: seq<T>, x: T, j: nat, rest: seq<T>, key: T -> int, inClass: T -> bool)
    requires j <= |sorted| && AllIn(sorted, inClass) && AllIn(rest, inClass) && inClass(x)
    requires j > 0 ==> key(sorted[j - 1]) <= key(x)
    requires Insert(sorted, x, key) == Insert(sorted[..j], x, key) + sorted[j..]
    ensures Layout(sorted, x, j, rest)[..|sorted| + 1] == Insert(sorted, x, key)
    ensures Layout(sorted, x, j, rest)[|sorted| + 1..] == rest
    ensures AllIn(Layout(sorted, x, j, rest), inClass)
  {
    LayoutAt(sorted, x, j, rest);
    InsertDone(sorted, x, j, key);
    AllInLayout(sorted, x, j, rest, inClass);
  }

  /** `a.sort(compare)` in place, as an insertion sort that calls the
      comparator. On elements it orders by a key it is the stable sort by
      that key. */
  method SortInPlace<T(!new)>(a: array<T>, compare: (T, T) -> int, ghost key: T -> int, ghost inClass: T -> bool)
    requires AllIn(a[..], inClass) && ComparesByKey(compare, key, inClass)
    modifies a
    ensures a[..] == SortByKey(old(a[..]), key)
  {
    ghost var s := a[..];
    var i := 0;
    while i < a.Length
      invariant 0 <= i <= a.Length
      invariant a[..i] == SortByKey(s[..i], key)
      invariant a[i..] == s[i..]
      invariant AllIn(a[..], inClass)
    {
      assert a[i] == s[i];
      ShiftInsert(a, i, compare, key, inClass);
      SortPrefixStep(s, i, key);
      i := i + 1;
    }
    assert a[..] == a[..a.Length] && s[..a.Length] == s;
  }
}

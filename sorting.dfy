/** Python's `list.sort(key=...)`: a stable sort by an integer key, written
    as an insertion sort. */
module Sorting {

  import opened Base
  import opened Lists

  /** Ascending by key. */
  predicate SortedBy<T>(s: seq<T>, key: T -> int)
  {
    forall i, j :: 0 <= i < j < |s| ==> key(s[i]) <= key(s[j])
  }

  /** The elements of `s` whose key is `k`, in their order in `s`. */
  function Filter<T>(s: seq<T>, key: T -> int, k: int): seq<T>
  {
    if |s| == 0 then [] else (if key(s[0]) == k then [s[0]] else []) + Filter(s[1..], key, k)
  }

  /** Placing `x` after every element of the sorted `s` whose key is at most its own. */
  function Insert<T>(s: seq<T>, x: T, key: T -> int): seq<T>
  {
    if |s| == 0 || key(s[|s| - 1]) <= key(x) then s + [x]
    else Insert(s[..|s| - 1], x, key) + [s[|s| - 1]]
  }

  /** `sorted(s, key=key)`. */
  function SortBy<T>(s: seq<T>, key: T -> int): seq<T>
  {
    if |s| == 0 then [] else Insert(SortBy(s[..|s| - 1], key), s[|s| - 1], key)
  }

  lemma {:induction false} FilterConcat<T>(a: seq<T>, b: seq<T>, key: T -> int, k: int)
    ensures Filter(a + b, key, k) == Filter(a, key, k) + Filter(b, key, k)
  {
    if |a| > 0 {
      FilterConcat(a[1..], b, key, k);
      assert (a + b)[1..] == a[1..] + b;
    } else {
      assert a + b == b;
    }
  }

  lemma FilterSnoc<T>(s: seq<T>, x: T, key: T -> int, k: int)
    ensures Filter(s + [x], key, k) == Filter(s, key, k) + (if key(x) == k then [x] else [])
  {
    FilterConcat(s, [x], key, k);
    assert [x][1..] == [];
  }

  /** Inserting adds exactly `x`. */
  lemma {:induction false} InsertPermutes<T>(s: seq<T>, x: T, key: T -> int)
    ensures multiset(Insert(s, x, key)) == multiset(s) + multiset{x}
  {
    if !(|s| == 0 || key(s[|s| - 1]) <= key(x)) {
      assert s == s[..|s| - 1] + [s[|s| - 1]];
      InsertPermutes(s[..|s| - 1], x, key);
    }
  }

  /** Inserting into a sorted sequence keeps it sorted. */
  lemma {:induction false} InsertSorted<T>(s: seq<T>, x: T, key: T -> int)
    requires SortedBy(s, key)
    ensures SortedBy(Insert(s, x, key), key)
  {
    if !(|s| == 0 || key(s[|s| - 1]) <= key(x)) {
      var init, last := s[..|s| - 1], s[|s| - 1];
      InsertSorted(init, x, key);
      forall y | y in init ensures key(y) <= key(last) {
        var i :| 0 <= i < |init| && init[i] == y;
        assert s[i] == y;
      }
      InsertBelow(init, x, key, key(last));
      SortedSnoc(Insert(init, x, key), last, key);
    } else {
      forall y | y in s ensures key(y) <= key(x) {
        var i :| 0 <= i < |s| && s[i] == y;
        if i < |s| - 1 {
          assert key(s[i]) <= key(s[|s| - 1]);
        }
      }
      SortedSnoc(s, x, key);
    }
  }

  /** Inserting an element keeps every key at most a bound that all keys,
      the new one included, were at most. */
  lemma InsertBelow<T>(s: seq<T>, x: T, key: T -> int, b: int)
    requires key(x) <= b && forall y :: y in s ==> key(y) <= b
    ensures forall y :: y in Insert(s, x, key) ==> key(y) <= b
  {
    InsertPermutes(s, x, key);
    forall y | y in Insert(s, x, key) ensures key(y) <= b {
      assert y in multiset(Insert(s, x, key));
    }
  }

  /** Appending an element with a key at least every other keeps a sorted
      sequence sorted. */
  lemma SortedSnoc<T>(s: seq<T>, x: T, key: T -> int)
    requires SortedBy(s, key) && forall y :: y in s ==> key(y) <= key(x)
    ensures SortedBy(s + [x], key)
  {
    var r := s + [x];
    forall i, j | 0 <= i < j < |r| ensures key(r[i]) <= key(r[j]) {
      assert r[i] == s[i] && s[i] in s;
      if j < |s| {
        assert r[j] == s[j];
      }
    }
  }

  /** Inserting puts `x` after every element with its key. */
  lemma {:induction false} InsertFilter<T>(s: seq<T>, x: T, key: T -> int, k: int)
    requires SortedBy(s, key)
    ensures Filter(Insert(s, x, key), key, k) == Filter(s, key, k) + (if key(x) == k then [x] else [])
  {
    if |s| == 0 || key(s[|s| - 1]) <= key(x) {
      FilterSnoc(s, x, key, k);
    } else {
      var init, last := s[..|s| - 1], s[|s| - 1];
      assert s == init + [last];
      InsertFilter(init, x, key, k);
      FilterSnoc(Insert(init, x, key), last, key, k);
      FilterSnoc(init, last, key, k);
    }
  }

  /** The sort is ordered, a permutation, and stable: among the elements
      with any one key it keeps their original order. */
  lemma {:induction false} SortFacts<T>(s: seq<T>, key: T -> int)
    ensures SortedBy(SortBy(s, key), key)
    ensures multiset(SortBy(s, key)) == multiset(s)
    ensures forall k :: Filter(SortBy(s, key), key, k) == Filter(s, key, k)
  {
    if |s| > 0 {
      var init, last := s[..|s| - 1], s[|s| - 1];
      assert s == init + [last];
      SortFacts(init, key);
      InsertSorted(SortBy(init, key), last, key);
      InsertPermutes(SortBy(init, key), last, key);
      forall k ensures Filter(SortBy(s, key), key, k) == Filter(s, key, k) {
        InsertFilter(SortBy(init, key), last, key, k);
        FilterSnoc(init, last, key, k);
      }
    }
  }

  /** The first element with key `k` heads the filter for `k`. */
  lemma {:induction false} FilterFirst<T>(s: seq<T>, key: T -> int, k: int)
    requires |Filter(s, key, k)| > 0
    ensures exists i :: (0 <= i < |s| && s[i] == Filter(s, key, k)[0] && key(s[i]) == k &&
                         forall j :: 0 <= j < i ==> key(s[j]) != k)
  {
    if key(s[0]) != k {
      FilterFirst(s[1..], key, k);
      var i :| 0 <= i < |s[1..]| && s[1..][i] == Filter(s[1..], key, k)[0] && key(s[1..][i]) == k &&
        forall j :: 0 <= j < i ==> key(s[1..][j]) != k;
      assert s[i + 1] == s[1..][i];
      forall j | 0 <= j < i + 1 ensures key(s[j]) != k {
        if j > 0 {
          assert s[j] == s[1..][j - 1];
        }
      }
    }
  }

  /** The head of a non-empty sort is an element with the least key, and of
      those the one that came first. */
  lemma SortHead<T>(s: seq<T>, key: T -> int)
    requires |s| > 0
    ensures |SortBy(s, key)| == |s|
    ensures SortBy(s, key)[0] in s
    ensures forall y :: y in s ==> key(SortBy(s, key)[0]) <= key(y)
    ensures exists i :: (0 <= i < |s| && s[i] == SortBy(s, key)[0] &&
                         forall j :: 0 <= j < i ==> key(s[j]) > key(s[i]))
  {
    SortFacts(s, key);
    var r := SortBy(s, key);
    assert |r| == |multiset(r)| == |multiset(s)| == |s|;
    assert r[0] in multiset(s);
    forall y | y in s ensures key(r[0]) <= key(y) {
      assert y in multiset(r);
      var j :| 0 <= j < |r| && r[j] == y;
    }
    var k := key(r[0]);
    assert Filter(r, key, k)[0] == r[0];
    FilterFirst(s, key, k);
    var i :| 0 <= i < |s| && s[i] == r[0] && key(s[i]) == k && forall j :: 0 <= j < i ==> key(s[j]) != k;
    assert forall j :: 0 <= j < i ==> key(s[j]) > k by {
      forall j | 0 <= j < i ensures key(s[j]) > k {
        assert s[j] in s;
      }
    }
  }

  /** Sorting keeps the length. */
  lemma SortLength<T>(s: seq<T>, key: T -> int)
    ensures |SortBy(s, key)| == |s|
  {
    SortFacts(s, key);
    assert |multiset(SortBy(s, key))| == |multiset(s)|;
  }

  /** Slicing the sort, `sorted(s, key=key)[:n]`, keeps no element with a
      larger key than one it leaves out; a slice with room for all keeps
      every element. */
  lemma SortedSliceKeepsLeast<T>(s: seq<T>, key: T -> int, n: int)
    ensures forall x, y :: (x in SliceTo(SortBy(s, key), n) && y in s && y !in SliceTo(SortBy(s, key), n)) ==> key(x) <= key(y)
    ensures n >= |s| ==> multiset(SliceTo(SortBy(s, key), n)) == multiset(s)
  {
    SortFacts(s, key);
    SortLength(s, key);
    var sorted := SortBy(s, key);
    var r := SliceTo(sorted, n);
    forall x, y | x in r && y in s && y !in r ensures key(x) <= key(y) {
      assert y in multiset(sorted);
      PrefixKeepsLeast(sorted, key, n, x, y);
    }
    if n >= |s| {
      assert r == sorted;
    }
  }

  /** In a sorted sequence, an element of a prefix has no larger key than an
      element outside it. */
  lemma PrefixKeepsLeast<T>(sorted: seq<T>, key: T -> int, n: int, x: T, y: T)
    requires SortedBy(sorted, key)
    requires x in SliceTo(sorted, n) && y in sorted && y !in SliceTo(sorted, n)
    ensures key(x) <= key(y)
  {
    var r := SliceTo(sorted, n);
    var j :| 0 <= j < |sorted| && sorted[j] == y;
    var i :| 0 <= i < |r| && r[i] == x;
    assert sorted[i] == x;
    if j < |r| {
      assert false;
    }
    assert i < j;
  }

  /** `sum(f(x) for x in s)`. */
  function SumOf<T>(s: seq<T>, f: T -> int): int
  {
    if |s| == 0 then 0 else SumOf(s[..|s| - 1], f) + f(s[|s| - 1])
  }

  lemma {:induction false} SumOfConcat<T>(a: seq<T>, b: seq<T>, f: T -> int)
    ensures SumOf(a + b, f) == SumOf(a, f) + SumOf(b, f)
  {
    if |b| == 0 {
      assert a + b == a;
    } else {
      assert (a + b)[..|a + b| - 1] == a + b[..|b| - 1];
      SumOfConcat(a, b[..|b| - 1], f);
    }
  }

  /** Reordering a sequence does not change its sum. */
  lemma {:induction false} SumOfPermutation<T>(a: seq<T>, b: seq<T>, f: T -> int)
    requires multiset(a) == multiset(b)
    ensures SumOf(a, f) == SumOf(b, f)
  {
    if |a| == 0 {
      assert |b| == |multiset(b)| == 0;
    } else {
      var init, x := a[..|a| - 1], a[|a| - 1];
      assert a == init + [x];
      assert multiset(init) == multiset(a) - multiset{x};
      assert x in multiset(b);
      var i :| 0 <= i < |b| && b[i] == x;
      SumWithout(b, i, f);
      SumOfPermutation(init, b[..i] + b[i + 1..], f);
    }
  }

  /** Taking out the element at `i` takes it out of the multiset and its
      value out of the sum. */
  lemma SumWithout<T>(b: seq<T>, i: int, f: T -> int)
    requires 0 <= i < |b|
    ensures multiset(b[..i] + b[i + 1..]) == multiset(b) - multiset{b[i]}
    ensures SumOf(b, f) == SumOf(b[..i] + b[i + 1..], f) + f(b[i])
  {
    MultisetWithout(b, i);
    SumOfWithout(b, i, f);
  }

  lemma MultisetWithout<T>(b: seq<T>, i: int)
    requires 0 <= i < |b|
    ensures multiset(b[..i] + b[i + 1..]) == multiset(b) - multiset{b[i]}
  {
    assert b == b[..i] + [b[i]] + b[i + 1..];
    MultisetSplit(b[..i], b[i], b[i + 1..]);
  }

  lemma SumOfWithout<T>(b: seq<T>, i: int, f: T -> int)
    requires 0 <= i < |b|
    ensures SumOf(b, f) == SumOf(b[..i] + b[i + 1..], f) + f(b[i])
  {
    assert b == b[..i] + [b[i]] + b[i + 1..];
    SumOfSplit(b[..i], b[i], b[i + 1..], f);
  }

  lemma MultisetSplit<T>(p: seq<T>, x: T, q: seq<T>)
    ensures multiset(p + q) == multiset(p + [x] + q) - multiset{x}
  {
    assert multiset(p + [x] + q) == multiset(p) + multiset{x} + multiset(q);
  }

  lemma SumOfSplit<T>(p: seq<T>, x: T, q: seq<T>, f: T -> int)
    ensures SumOf(p + [x] + q, f) == SumOf(p + q, f) + f(x)
  {
    SumOfConcat(p + [x], q, f);
    SumOfConcat(p, [x], f);
    SumOfConcat(p, q, f);
    assert [x][..0] == [];
  }
}

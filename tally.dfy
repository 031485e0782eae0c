/** Counting with dictionaries, the way the Python code does it with
    `d[k] = d.get(k, 0) + 1`, `Counter` and `defaultdict(int)`.

    Python dictionaries remember the order in which keys were first inserted;
    `FirstSeen` is that order, and it decides which key `max(d, key=d.get)`
    returns when several keys tie. */
module Tally {

  /** One `d[k] = d.get(k, 0) + 1`. */
  function Bump<K(==, !new)>(m: map<K, int>, k: K): (r: map<K, int>)
    ensures r.Keys == m.Keys + {k}
    ensures r[k] == (if k in m then m[k] else 0) + 1
    ensures forall j :: j in m && j != k ==> r[j] == m[j]
  {
    m[k := (if k in m then m[k] else 0) + 1]
  }

  /** The dictionary built by bumping every key of `keys` in turn. */
  function Counts<K(==, !new)>(keys: seq<K>): map<K, int>
  {
    if |keys| == 0 then map[] else Bump(Counts(keys[..|keys| - 1]), keys[|keys| - 1])
  }

  /** The keys of `Counts(keys)` in dictionary (first-insertion) order. */
  function FirstSeen<K(==, !new)>(keys: seq<K>): seq<K>
  {
    if |keys| == 0 then []
    else
      var prior := FirstSeen(keys[..|keys| - 1]);
      var k := keys[|keys| - 1];
      if k in prior then prior else prior + [k]
  }

  /** The dictionary holds exactly the keys bumped, each with the number of
      times it was bumped, and its order lists each of them once. */
  lemma {:induction false} CountsFacts<K(!new)>(keys: seq<K>)
    ensures forall k :: k in Counts(keys) <==> k in keys
    ensures forall k :: k in Counts(keys) ==> Counts(keys)[k] == multiset(keys)[k]
    ensures forall k :: k in FirstSeen(keys) <==> k in keys
    ensures Distinct(FirstSeen(keys)) && |FirstSeen(keys)| <= |keys|
  {
    if |keys| > 0 {
      var init := keys[..|keys| - 1];
      var k := keys[|keys| - 1];
      assert keys == init + [k];
      assert forall j :: j in keys <==> j in init || j == k;
      CountsFacts(init);
    }
  }

  /** Every key in the order has a count. */
  lemma OrderIsCounted<K(!new)>(keys: seq<K>)
    ensures forall k :: k in FirstSeen(keys) ==> k in Counts(keys)
  {
    CountsFacts(keys);
  }

  /** The order lists exactly the counted keys. */
  lemma OrderListsCounted<K(!new)>(keys: seq<K>)
    ensures forall k :: k in Counts(keys) <==> k in FirstSeen(keys)
  {
    CountsFacts(keys);
  }

  predicate Distinct<K(==, !new)>(s: seq<K>)
  {
    forall i, j :: 0 <= i < j < |s| ==> s[i] != s[j]
  }

  /** `sum(m[k] for k in order)`; a key missing from the dictionary counts 0. */
  function SumOver<K(==, !new)>(order: seq<K>, m: map<K, int>): int
  {
    if |order| == 0 then 0
    else
      var k := order[|order| - 1];
      SumOver(order[..|order| - 1], m) + (if k in m then m[k] else 0)
  }

  /** Values of keys outside `order` do not contribute to the sum. */
  lemma {:induction false} SumOverIgnoresOthers<K(!new)>(order: seq<K>, m: map<K, int>, k: K, v: int)
    requires k !in order
    ensures SumOver(order, m[k := v]) == SumOver(order, m)
  {
    if |order| > 0 {
      SumOverIgnoresOthers(order[..|order| - 1], m, k, v);
    }
  }

  /** Bumping a key that appears once in `order` adds one to the sum. */
  lemma {:induction false} SumOverBump<K(!new)>(order: seq<K>, m: map<K, int>, k: K)
    requires Distinct(order) && k in order
    ensures SumOver(order, Bump(m, k)) == SumOver(order, m) + 1
  {
    var init := order[..|order| - 1];
    var last := order[|order| - 1];
    if last == k {
      assert k !in init by {
        forall i | 0 <= i < |init| ensures init[i] != k {
          assert order[i] == init[i];
        }
      }
      SumOverIgnoresOthers(init, m, k, (if k in m then m[k] else 0) + 1);
    } else {
      assert k in init;
      SumOverBump(init, m, k);
    }
  }

  /** The counts over the dictionary's keys add up to the number of keys bumped. */
  lemma {:induction false} CountsSum<K(!new)>(keys: seq<K>)
    ensures SumOver(FirstSeen(keys), Counts(keys)) == |keys|
  {
    if |keys| > 0 {
      var init := keys[..|keys| - 1];
      var k := keys[|keys| - 1];
      var prior := FirstSeen(init);
      var m := Counts(init);
      CountsSum(init);
      assert Counts(keys) == Bump(m, k);
      CountsFacts(init);
      if k in prior {
        SumOverBump(prior, m, k);
      } else {
        SumOverIgnoresOthers(prior, m, k, 1);
        assert (prior + [k])[..|prior|] == prior;
      }
    }
  }

  /** Counting a sequence one key at a time extends the count of its prefix. */
  lemma CountsSnoc<K(!new)>(keys: seq<K>, k: K)
    ensures Counts(keys + [k]) == Bump(Counts(keys), k)
    ensures FirstSeen(keys + [k]) == if k in FirstSeen(keys) then FirstSeen(keys) else FirstSeen(keys) + [k]
  {
    assert (keys + [k])[..|keys|] == keys;
  }

  /** `d[k] = d.get(k, 0) + 1` on a dictionary that remembers the order in
      which its keys were first inserted. */
  method BumpOrdered<K(==, !new)>(m: map<K, int>, order: seq<K>, k: K) returns (m': map<K, int>, order': seq<K>)
    ensures m' == Bump(m, k)
    ensures order' == if k in m then order else order + [k]
  {
    if k in m {
      order' := order;
    } else {
      order' := order + [k];
    }
    m' := m[k := (if k in m then m[k] else 0) + 1];
  }

  /** A dictionary and its key order as built from `keys`. */
  ghost predicate Tallied<K(!new)>(m: map<K, int>, order: seq<K>, keys: seq<K>)
  {
    m == Counts(keys) && order == FirstSeen(keys)
  }

  /** Bumping one more key keeps the dictionary and its order in step: a new
      key goes to the end of the order. */
  lemma TalliedSnoc<K(!new)>(m: map<K, int>, order: seq<K>, keys: seq<K>, k: K)
    requires Tallied(m, order, keys)
    ensures Tallied(Bump(m, k), if k in m then order else order + [k], keys + [k])
  {
    CountsSnoc(keys, k);
    CountsFacts(keys);
  }

  /** The largest value in the dictionary, over the keys in `order`. */
  function MaxOver<K(==, !new)>(order: seq<K>, m: map<K, int>): (v: int)
    requires |order| > 0 && forall k :: k in order ==> k in m
    ensures forall i :: 0 <= i < |order| ==> m[order[i]] <= v
    ensures exists i :: 0 <= i < |order| && m[order[i]] == v
  {
    if |order| == 1 then m[order[0]]
    else
      var rest := MaxOver(order[1..], m);
      assert forall i :: 1 <= i < |order| ==> order[i] == order[1..][i - 1];
      if m[order[0]] >= rest then m[order[0]] else rest
  }

  /** `max(d, key=d.get)` over keys iterated in `order`: the position of the
      first key whose value is maximal. */
  function PeakIndex<K(==, !new)>(order: seq<K>, m: map<K, int>): (i: nat)
    requires |order| > 0 && forall k :: k in order ==> k in m
    ensures i < |order|
    ensures m[order[i]] == MaxOver(order, m)
    ensures forall j :: 0 <= j < i ==> m[order[j]] < m[order[i]]
  {
    FirstAtLeast(order, m, MaxOver(order, m), 0)
  }

  /** The first position from `from` on whose value reaches `v`. */
  function FirstAtLeast<K(==, !new)>(order: seq<K>, m: map<K, int>, v: int, from: nat): (i: nat)
    requires from <= |order| && forall k :: k in order ==> k in m
    requires forall j :: from <= j < |order| ==> m[order[j]] <= v
    requires exists j :: from <= j < |order| && m[order[j]] == v
    ensures from <= i < |order| && m[order[i]] == v
    ensures forall j :: from <= j < i ==> m[order[j]] < v
    decreases |order| - from
  {
    if m[order[from]] == v then from else FirstAtLeast(order, m, v, from + 1)
  }

  /** `max(d, key=d.get)` for the dictionary counted from `keys`. */
  function PeakKey<K(==, !new)>(keys: seq<K>): K
    requires |keys| > 0
  {
    OrderIsCounted(keys);
    FirstSeen(keys)[PeakIndex(FirstSeen(keys), Counts(keys))]
  }

  /** The highest count in the dictionary counted from `keys`. */
  function PeakCount<K(==, !new)>(keys: seq<K>): int
    requires |keys| > 0
  {
    OrderIsCounted(keys);
    MaxOver(FirstSeen(keys), Counts(keys))
  }

  /** `key` comes in `order` after keys that all count less than `count`. */
  ghost predicate IsFirstPeak<K(!new)>(order: seq<K>, m: map<K, int>, key: K, count: int)
  {
    exists j :: 0 <= j < |order| && order[j] == key && forall j' :: 0 <= j' < j ==> order[j'] in m && m[order[j']] < count
  }

  /** The peak key is counted, with the peak count; no key is counted more
      often; and every key before it in dictionary order is counted less. */
  lemma PeakFacts<K(!new)>(keys: seq<K>)
    requires |keys| > 0
    ensures PeakKey(keys) in Counts(keys) && Counts(keys)[PeakKey(keys)] == PeakCount(keys)
    ensures forall k :: k in Counts(keys) ==> Counts(keys)[k] <= PeakCount(keys)
    ensures IsFirstPeak(FirstSeen(keys), Counts(keys), PeakKey(keys), PeakCount(keys))
  {
    OrderListsCounted(keys);
    var order, m := FirstSeen(keys), Counts(keys);
    var p := PeakIndex(order, m);
    var peak := MaxOver(order, m);
    assert order[p] == PeakKey(keys) && peak == PeakCount(keys);
    assert order[p] in m && m[order[p]] == peak;
    forall k | k in m
      ensures m[k] <= peak
    {
      var j :| 0 <= j < |order| && order[j] == k;
    }
    forall j' | 0 <= j' < p
      ensures order[j'] in m && m[order[j']] < peak
    {
      assert order[j'] in order;
    }
  }

  /** `min(s)`: the least element. */
  function SeqMin(s: seq<int>): (m: int)
    requires |s| > 0
    ensures forall i :: 0 <= i < |s| ==> m <= s[i]
    ensures exists i :: 0 <= i < |s| && s[i] == m
  {
    if |s| == 1 then s[0]
    else
      var rest := SeqMin(s[1..]);
      assert forall i :: 1 <= i < |s| ==> s[i] == s[1..][i - 1];
      if s[0] <= rest then s[0] else rest
  }

  /** `max(s)`: the greatest element. */
  function SeqMax(s: seq<int>): (m: int)
    requires |s| > 0
    ensures forall i :: 0 <= i < |s| ==> s[i] <= m
    ensures exists i :: 0 <= i < |s| && s[i] == m
  {
    if |s| == 1 then s[0]
    else
      var rest := SeqMax(s[1..]);
      assert forall i :: 1 <= i < |s| ==> s[i] == s[1..][i - 1];
      if s[0] >= rest then s[0] else rest
  }
  /** `d.get(k, 0)`. */
  function CountOf<K(==, !new)>(m: map<K, int>, k: K): int
  {
    if k in m then m[k] else 0
  }

  /** Looking up a key in a count gives the number of times it was bumped. */
  lemma CountOfCounts<K(!new)>(keys: seq<K>, k: K)
    ensures CountOf(Counts(keys), k) == multiset(keys)[k]
  {
    CountsFacts(keys);
  }

  /** A sequence with a repeated element holds it at least twice. */
  lemma Repeated<K>(s: seq<K>, i: int, j: int)
    requires 0 <= i < j < |s| && s[i] == s[j]
    ensures multiset(s)[s[i]] >= 2
  {
    assert s == s[..j] + s[j..];
    assert s[i] == s[..j][i];
    assert s[j] == s[j..][0];
  }

  /** A sequence without repeats holds each element at most once. */
  lemma {:induction false} DistinctOnce<K(!new)>(s: seq<K>, k: K)
    requires Distinct(s)
    ensures multiset(s)[k] <= 1
  {
    if |s| > 0 {
      var init, last := s[..|s| - 1], s[|s| - 1];
      assert s == init + [last];
      assert Distinct(init);
      DistinctOnce(init, k);
      if last == k {
        assert k !in init by {
          forall i | 0 <= i < |init| ensures init[i] != k {
            assert s[i] == init[i];
          }
        }
      }
    }
  }

  /** Reordering a sequence without repeats leaves it without repeats. */
  lemma DistinctPermutation<K(!new)>(a: seq<K>, b: seq<K>)
    requires Distinct(a) && multiset(a) == multiset(b)
    ensures Distinct(b)
  {
    forall i, j | 0 <= i < j < |b| ensures b[i] != b[j] {
      if b[i] == b[j] {
        Repeated(b, i, j);
        DistinctOnce(a, b[i]);
      }
    }
  }
}

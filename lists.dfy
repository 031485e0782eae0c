/** Python list slicing, and lists of lists as built by
    `all_specs.extend(specs)` in a loop. */
module Lists {

  import opened Base

  /** Python's `s[:n]`, where a negative `n` drops that many from the end. */
  function SliceTo<T>(s: seq<T>, n: int): (r: seq<T>)
    ensures |r| <= |s| && r == s[..|r|]
    ensures n >= 0 ==> |r| == Min(n, |s|)
    ensures n < 0 ==> |r| == Max(0, |s| + n)
  {
    if n >= 0 then Take(s, n) else if |s| + n >= 0 then s[..|s| + n] else []
  }


  /** The lists joined in order. */
  function Flatten<T>(ls: seq<seq<T>>): seq<T>
  {
    if |ls| == 0 then [] else Flatten(ls[..|ls| - 1]) + ls[|ls| - 1]
  }

  /** An element of the joined list is an element of one of the lists. */
  lemma {:induction false} FlattenMembership<T>(ls: seq<seq<T>>, x: T)
    ensures x in Flatten(ls) <==> exists i :: 0 <= i < |ls| && x in ls[i]
  {
    if |ls| > 0 {
      var n := |ls| - 1;
      FlattenMembership(ls[..n], x);
      if exists i :: 0 <= i < |ls| && x in ls[i] {
        var i :| 0 <= i < |ls| && x in ls[i];
        if i < n {
          assert ls[..n][i] == ls[i];
        }
      }
      if x in Flatten(ls[..n]) {
        var i :| 0 <= i < n && x in ls[..n][i];
        assert ls[i] == ls[..n][i];
      }
    }
  }

  /** `[f(x, y) for y in ys]`. */
  function Row<A, B, C>(x: A, ys: seq<B>, f: (A, B) -> C): (r: seq<C>)
    ensures |r| == |ys|
  {
    if |ys| == 0 then [] else Row(x, ys[..|ys| - 1], f) + [f(x, ys[|ys| - 1])]
  }

  /** `[f(x, y) for x in xs for y in ys]`: the rows for `xs` in order. */
  function Grid<A, B, C>(xs: seq<A>, ys: seq<B>, f: (A, B) -> C): (r: seq<C>)
    ensures |r| == |xs| * |ys|
  {
    if |xs| == 0 then []
    else
      var k := |xs| - 1;
      MulSuccLeft(k, |ys|);
      Grid(xs[..k], ys, f) + Row(xs[k], ys, f)
  }

  lemma {:induction false} RowAt<A, B, C>(x: A, ys: seq<B>, f: (A, B) -> C, j: nat)
    requires j < |ys|
    ensures Row(x, ys, f)[j] == f(x, ys[j])
  {
    if j < |ys| - 1 {
      RowAt(x, ys[..|ys| - 1], f, j);
    }
  }

  /** Element `j` of row `i` is at `i * |ys| + j`. */
  lemma {:induction false} GridAt<A, B, C>(xs: seq<A>, ys: seq<B>, f: (A, B) -> C, i: nat, j: nat)
    requires i < |xs| && j < |ys|
    ensures i * |ys| + j < |Grid(xs, ys, f)|
    ensures Grid(xs, ys, f)[i * |ys| + j] == f(xs[i], ys[j])
  {
    var k, m := |xs| - 1, |ys|;
    var prev, last := Grid(xs[..k], ys, f), Row(xs[k], ys, f);
    assert Grid(xs, ys, f) == prev + last;
    GridIndex(i, j, k, m);
    if i < k {
      GridAt(xs[..k], ys, f, i, j);
      assert xs[..k][i] == xs[i];
      assert (prev + last)[i * m + j] == prev[i * m + j];
    } else {
      RowAt(xs[k], ys, f, j);
      assert (prev + last)[i * m + j] == last[j];
    }
  }

  /** A sequence holding `f(x, y)` at the position of each `y` is the row. */
  lemma RowOfPoints<A, B, C>(x: A, ys: seq<B>, f: (A, B) -> C, r: seq<C>)
    requires |r| == |ys| && forall j :: 0 <= j < |ys| ==> r[j] == f(x, ys[j])
    ensures r == Row(x, ys, f)
  {
    forall j | 0 <= j < |ys|
      ensures r[j] == Row(x, ys, f)[j]
    {
      RowAt(x, ys, f, j);
    }
  }

  lemma RowSnoc<A, B, C>(x: A, ys: seq<B>, f: (A, B) -> C, j: nat)
    requires j < |ys|
    ensures Row(x, ys[..j + 1], f) == Row(x, ys[..j], f) + [f(x, ys[j])]
  {
    assert ys[..j + 1][..j] == ys[..j];
  }

  lemma GridSnoc<A, B, C>(xs: seq<A>, ys: seq<B>, f: (A, B) -> C, k: nat)
    requires k < |xs|
    ensures Grid(xs[..k + 1], ys, f) == Grid(xs[..k], ys, f) + Row(xs[k], ys, f)
  {
    assert xs[..k + 1][..k] == xs[..k];
  }
}

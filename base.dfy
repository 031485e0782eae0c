/** Small shared vocabulary: optional values, results, and the integer
    operators of Python that differ from Dafny's. */
module Base {

  /** A value that may be absent (Python's `None`). */
  datatype Option<+T> = None | Some(value: T)

  /** A computation that either succeeds or raises. */
  datatype Result<+T, +E> = Ok(value: T) | Err(error: E)

  function Max(a: int, b: int): (m: int)
    ensures m >= a && m >= b && (m == a || m == b)
  {
    if a >= b then a else b
  }

  function Min(a: int, b: int): (m: int)
    ensures m <= a && m <= b && (m == a || m == b)
  {
    if a <= b then a else b
  }

  /** `s[:n]` for `n >= 0`. */
  function Take<T>(s: seq<T>, n: nat): (r: seq<T>)
    ensures |r| == Min(n, |s|) && r == s[..|r|]
  {
    if n <= |s| then s[..n] else s
  }

  /** Python's `a // b`: the quotient rounded toward negative infinity. */
  function FloorDiv(a: int, b: int): int
    requires b != 0
  {
    if b > 0 then a / b else (-a) / (-b)
  }

  /** `FloorDiv` rounds toward negative infinity: `q * b` is the multiple of
      `b` at or below `a` (for a positive divisor) or at or above it (for a
      negative one), less than one `|b|` away. */
  lemma FloorDivIsFloor(a: int, b: int)
    requires b != 0
    ensures b > 0 ==> FloorDiv(a, b) * b <= a < FloorDiv(a, b) * b + b
    ensures b < 0 ==> FloorDiv(a, b) * b + b < a <= FloorDiv(a, b) * b
  {
  }

  /** Python's `int(x / b)` for a positive divisor: the quotient rounded toward zero. */
  function TruncDiv(a: int, b: int): (q: int)
    requires b > 0
    ensures a >= 0 ==> q == a / b
    ensures a < 0 ==> q == -((-a) / b) && q <= 0
  {
    if a >= 0 then a / b else -((-a) / b)
  }

  lemma DivIsMonotone(a: int, c: int, b: int)
    requires b > 0 && a <= c
    ensures a / b <= c / b
  {
    var qa, qc := a / b, c / b;
    assert qa * b <= a;
    assert c < qc * b + b;
    assert qa * b < (qc + 1) * b;
    MulCancelsStrictly(qa, qc + 1, b);
  }

  lemma MulCancelsStrictly(x: int, y: int, b: int)
    requires b > 0 && x * b < y * b
    ensures x < y
  {
    assert (y - x) * b > 0;
  }

  lemma MulIsMonotone(a: int, c: int, b: int)
    requires b >= 0 && a <= c
    ensures a * b <= c * b
  {
  }

  /** One more multiple of `a`. */
  lemma MulSucc(a: int, w: int)
    ensures a * (w + 1) == a * w + a
  {
  }

  /** One more row of `m`. */
  lemma MulSuccLeft(w: int, m: int)
    ensures (w + 1) * m == w * m + m
  {
  }

  /** Position `j` of row `i` of a grid with rows of `m` lies inside the
      first `k + 1` rows, and inside the first `k` when `i < k`. */
  lemma GridIndex(i: int, j: int, k: int, m: int)
    requires 0 <= i <= k && 0 <= j < m
    ensures i * m + j < (k + 1) * m
    ensures i < k ==> i * m + j < k * m
  {
    MulIsMonotone(i + 1, k + 1, m);
    if i < k {
      MulIsMonotone(i + 1, k, m);
    }
  }

  /** Dividing `b * q + j` by `b`, for `0 <= j < b`, gives back `q` and `j`. */
  lemma DivOfMultiplePlus(b: int, q: int, j: int)
    requires 0 <= j < b
    ensures (b * q + j) / b == q && (b * q + j) % b == j
  {
    var x := b * q + j;
    var q', j' := x / b, x % b;
    assert b * (q - q') == j' - j;
    if q' < q {
      MulIsMonotone(1, q - q', b);
    } else if q' > q {
      MulIsMonotone(1, q' - q, b);
    }
  }

  /** A number below `b * w` has a quotient by `b` below `w`. */
  lemma DivBelow(k: int, b: int, w: int)
    requires 0 <= k < b * w && b > 0
    ensures k / b < w
  {
    assert (k / b) * b <= k;
    MulCancelsStrictly(k / b, w, b);
  }
}

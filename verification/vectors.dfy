/** Real-valued vectors: sums, dot products and cyclic rotation of
    12-entry pitch-class vectors. Arithmetic is exact (Dafny `real`). */
module Vectors {

  /** Sum of the entries. */
  function Sum(s: seq<real>): real
  {
    if |s| == 0 then 0.0 else s[0] + Sum(s[1..])
  }

  /** Entry-wise product of two vectors of equal length. */
  function Mul(a: seq<real>, b: seq<real>): seq<real>
    requires |a| == |b|
  {
    seq(|a|, i requires 0 <= i < |a| => a[i] * b[i])
  }

  /** Inner product, as numpy's `dot` on two 1-D arrays. */
  function Dot(a: seq<real>, b: seq<real>): real
    requires |a| == |b|
  {
    Sum(Mul(a, b))
  }

  /** Squared Euclidean norm. */
  function SumSq(a: seq<real>): real
  {
    Dot(a, a)
  }

  /** Cyclic rotation of a 12-vector by `k` places: entry `i` of the
      result is entry `(i - k) mod 12` of `s`, so rotating by 1 moves
      every entry one pitch class up. */
  function Rotate(s: seq<real>, k: int): (r: seq<real>)
    requires |s| == 12
    ensures |r| == 12
  {
    seq(12, i requires 0 <= i < 12 => s[(i - k) % 12])
  }

  /** Sum is linear: a vector that is, entry by entry, a combination of
      two others sums to the same combination of their sums. */
  lemma {:induction false} SumLinear(u: seq<real>, v: seq<real>, w: seq<real>, alpha: real, beta: real)
    requires |u| == |v| == |w|
    requires forall i :: 0 <= i < |w| ==> w[i] == alpha * u[i] + beta * v[i]
    ensures Sum(w) == alpha * Sum(u) + beta * Sum(v)
  {
    if |w| > 0 {
      SumLinear(u[1..], v[1..], w[1..], alpha, beta);
      calc {
        Sum(w);
        w[0] + Sum(w[1..]);
        alpha * u[0] + beta * v[0] + alpha * Sum(u[1..]) + beta * Sum(v[1..]);
        alpha * (u[0] + Sum(u[1..])) + beta * (v[0] + Sum(v[1..]));
      }
    }
  }

  /** Scaling every entry by `c` scales the sum by `c`. */
  lemma {:induction false} SumScale(u: seq<real>, w: seq<real>, c: real)
    requires |u| == |w|
    requires forall i :: 0 <= i < |w| ==> w[i] == c * u[i]
    ensures Sum(w) == c * Sum(u)
  {
    if |w| > 0 {
      SumScale(u[1..], w[1..], c);
    }
  }

  /** A vector whose entries all equal `c` sums to `|s| * c`. */
  lemma {:induction false} SumConstant(s: seq<real>, c: real)
    requires forall i :: 0 <= i < |s| ==> s[i] == c
    ensures Sum(s) == (|s| as real) * c
  {
    if |s| > 0 {
      SumConstant(s[1..], c);
    }
  }

  /** Sum distributes over concatenation. */
  lemma {:induction false} SumAppend(a: seq<real>, b: seq<real>)
    ensures Sum(a + b) == Sum(a) + Sum(b)
  {
    if |a| > 0 {
      assert (a + b)[1..] == a[1..] + b;
      SumAppend(a[1..], b);
    } else {
      assert a + b == b;
    }
  }

  /** A sum of non-negative entries is at least each of its entries
      (so in particular it is non-negative). */
  lemma {:induction false} SumAtLeastEntry(s: seq<real>, i: int)
    requires forall j :: 0 <= j < |s| ==> s[j] >= 0.0
    requires 0 <= i < |s|
    ensures Sum(s) >= s[i] >= 0.0
  {
    if i > 0 {
      SumAtLeastEntry(s[1..], i - 1);
    } else if |s| > 1 {
      SumAtLeastEntry(s[1..], 0);
    }
  }

  /** A product of two reals of the same strict sign is positive. (The
      product is passed in as `m` so that callers can name it by the
      term they hold.) */
  lemma ProductPositive(m: real, a: real, b: real)
    requires m == a * b
    requires (a > 0.0 && b > 0.0) || (a < 0.0 && b < 0.0)
    ensures m > 0.0
  {
    if a < 0.0 {
      assert m == (-a) * (-b);
    }
  }

  /** A square is non-negative, and positive when its root is non-zero. */
  lemma SquareSign(m: real, x: real)
    requires m == x * x
    ensures m >= 0.0
    ensures x != 0.0 ==> m > 0.0
  {
    if x != 0.0 {
      ProductPositive(m, x, x);
    }
  }

  /** A squared norm is non-negative, and positive as soon as one entry
      is non-zero. */
  lemma SumSqNonNegative(a: seq<real>)
    ensures SumSq(a) >= 0.0
    ensures (exists i :: 0 <= i < |a| && a[i] != 0.0) ==> SumSq(a) > 0.0
  {
    var m := Mul(a, a);
    forall i | 0 <= i < |m| ensures m[i] >= 0.0 {
      SquareSign(m[i], a[i]);
    }
    if |a| > 0 {
      SumAtLeastEntry(m, 0);
    }
    if exists i :: 0 <= i < |a| && a[i] != 0.0 {
      var i :| 0 <= i < |a| && a[i] != 0.0;
      SquareSign(m[i], a[i]);
      SumAtLeastEntry(m, i);
    }
  }

  /** `x^2 + y^2 - 2xy` is the square of `x - y` and `x^2 + y^2 + 2xy` the
      square of `x + y`: both are non-negative, and the first is positive
      when `x != y`. (The products are passed in, named.) */
  lemma SquareGaps(x: real, y: real, xx: real, yy: real, xy: real)
    requires xx == x * x && yy == y * y && xy == x * y
    ensures xx + yy - 2.0 * xy >= 0.0
    ensures x != y ==> xx + yy - 2.0 * xy > 0.0
    ensures xx + yy + 2.0 * xy >= 0.0
  {
    var d, s := x - y, x + y;
    assert d * d == xx + yy - 2.0 * xy;
    assert s * s == xx + yy + 2.0 * xy;
    SquareSign(d * d, d);
    SquareSign(s * s, s);
  }

  /** `SquareGaps` at entry `i` of two vectors. */
  lemma SquareGapsAt(a: seq<real>, b: seq<real>, i: int)
    requires |a| == |b| && 0 <= i < |a|
    ensures Mul(a, a)[i] + Mul(b, b)[i] - 2.0 * Mul(a, b)[i] >= 0.0
    ensures a[i] != b[i] ==> Mul(a, a)[i] + Mul(b, b)[i] - 2.0 * Mul(a, b)[i] > 0.0
    ensures Mul(a, a)[i] + Mul(b, b)[i] + 2.0 * Mul(a, b)[i] >= 0.0
  {
    SquareGaps(a[i], b[i], Mul(a, a)[i], Mul(b, b)[i], Mul(a, b)[i]);
  }

  /** The two binomial expansions, entry by entry: `lo[i]` is
      `(a[i] - b[i])^2` and `hi[i]` is `(a[i] + b[i])^2`, written out, and
      their sums are `|a|^2 + |b|^2 -/+ 2 a.b`. */
  lemma BinomialSums(a: seq<real>, b: seq<real>) returns (lo: seq<real>, hi: seq<real>)
    requires |a| == |b|
    ensures |lo| == |hi| == |a|
    ensures Sum(lo) == SumSq(a) + SumSq(b) - 2.0 * Dot(a, b)
    ensures Sum(hi) == SumSq(a) + SumSq(b) + 2.0 * Dot(a, b)
    ensures forall i :: 0 <= i < |a| ==> lo[i] >= 0.0 && hi[i] >= 0.0
    ensures forall i :: 0 <= i < |a| && a[i] != b[i] ==> lo[i] > 0.0
  {
    var aa, bb, ab := Mul(a, a), Mul(b, b), Mul(a, b);
    var sq := seq(|a|, i requires 0 <= i < |a| => aa[i] + bb[i]);
    SumLinear(aa, bb, sq, 1.0, 1.0);
    lo := seq(|a|, i requires 0 <= i < |a| => sq[i] - 2.0 * ab[i]);
    hi := seq(|a|, i requires 0 <= i < |a| => sq[i] + 2.0 * ab[i]);
    SumLinear(sq, ab, lo, 1.0, -2.0);
    SumLinear(sq, ab, hi, 1.0, 2.0);
    forall i | 0 <= i < |a| ensures lo[i] >= 0.0 && hi[i] >= 0.0 && (a[i] != b[i] ==> lo[i] > 0.0) {
      SquareGapsAt(a, b, i);
    }
  }

  /** The inner product is bounded by the mean of the two squared norms
      (from `2ab <= a^2 + b^2`). */
  lemma DotBound(a: seq<real>, b: seq<real>)
    requires |a| == |b|
    ensures -(SumSq(a) + SumSq(b)) <= 2.0 * Dot(a, b) <= SumSq(a) + SumSq(b)
  {
    var lo, hi := BinomialSums(a, b);
    if |a| > 0 {
      SumAtLeastEntry(lo, 0);
      SumAtLeastEntry(hi, 0);
    }
  }

  /** Two vectors that differ somewhere stay strictly below the bound. */
  lemma DotBelowBound(a: seq<real>, b: seq<real>, i: int)
    requires |a| == |b|
    requires 0 <= i < |a| && a[i] != b[i]
    ensures 2.0 * Dot(a, b) < SumSq(a) + SumSq(b)
  {
    var lo, hi := BinomialSums(a, b);
    SumAtLeastEntry(lo, i);
  }

  /** The inner product reaches the upper bound only for equal vectors. */
  lemma DotAtBound(a: seq<real>, b: seq<real>)
    requires |a| == |b|
    requires 2.0 * Dot(a, b) == SumSq(a) + SumSq(b)
    ensures a == b
  {
    forall i | 0 <= i < |a| ensures a[i] == b[i] {
      if a[i] != b[i] {
        DotBelowBound(a, b, i);
      }
    }
  }

  /** Rotation by `k` is a split-and-swap of the sequence. */
  lemma RotateSplit(s: seq<real>, k: int)
    requires |s| == 12
    ensures Rotate(s, k) == s[12 - k % 12..] + s[..12 - k % 12]
  {
    var c := 12 - k % 12;
    forall i | 0 <= i < 12 ensures Rotate(s, k)[i] == (s[c..] + s[..c])[i] {
      if i < 12 - c {
        assert (i - k) % 12 == c + i;
      } else {
        assert (i - k) % 12 == i - (12 - c);
      }
    }
  }

  /** Rotation only rearranges entries, so it keeps the sum. */
  lemma SumRotate(s: seq<real>, k: int)
    requires |s| == 12
    ensures Sum(Rotate(s, k)) == Sum(s)
  {
    var c := 12 - k % 12;
    RotateSplit(s, k);
    SumAppend(s[c..], s[..c]);
    SumAppend(s[..c], s[c..]);
    assert s[..c] + s[c..] == s;
  }

  /** Adding a multiple of 12 does not change a residue mod 12. */
  lemma ModOffset(x: int, q: int)
    ensures (x - 12 * q) % 12 == x % 12
  {
  }

  /** Rotation by `k` moves entry `j` to position `(j + k) mod 12`. */
  lemma RotateAt(s: seq<real>, k: int, j: int)
    requires |s| == 12
    requires 0 <= j < 12
    ensures Rotate(s, k)[(j + k) % 12] == s[j]
  {
    var q := (j + k) / 12;
    ModOffset(j, q);
    assert (j + k) % 12 - k == j - 12 * q;
  }

  /** Position `i` of a rotation by `k` comes from position
      `(i - k) mod 12`, which the rotation maps back to `i`. */
  lemma RotateBack(k: int, i: int)
    requires 0 <= i < 12
    ensures ((i - k) % 12 + k) % 12 == i
  {
    var q := (i - k) / 12;
    assert (i - k) % 12 + k == i - 12 * q;
    ModOffset(i, q);
  }

  /** Rotating by `a` and then by `b` is rotating by `a + b`. */
  lemma RotateCompose(s: seq<real>, a: int, b: int)
    requires |s| == 12
    ensures Rotate(Rotate(s, a), b) == Rotate(s, a + b)
  {
    forall i | 0 <= i < 12 ensures Rotate(Rotate(s, a), b)[i] == Rotate(s, a + b)[i] {
      var j := (i - b) % 12;
      var q := (i - b) / 12;
      assert i - b == 12 * q + j;
      ModOffset(i - (a + b), q);
      assert j - a == i - (a + b) - 12 * q;
    }
  }

  /** Rotations by amounts congruent mod 12 are equal. */
  lemma RotateCongruent(s: seq<real>, a: int, b: int)
    requires |s| == 12
    requires a % 12 == b % 12
    ensures Rotate(s, a) == Rotate(s, b)
  {
    forall i | 0 <= i < 12 ensures Rotate(s, a)[i] == Rotate(s, b)[i] {
      var q := (a - b) / 12;
      assert a - b == 12 * q;
      ModOffset(i - b, q);
    }
  }

  /** Rotating by a multiple of 12 changes nothing. */
  lemma RotateByMultiple(s: seq<real>, k: int)
    requires |s| == 12
    requires k % 12 == 0
    ensures Rotate(s, k) == s
  {
    forall i | 0 <= i < 12 ensures Rotate(s, k)[i] == s[i] {
      assert (i - k) % 12 == i;
    }
  }

  /** Rotating both factors by the same amount keeps the inner product. */
  lemma DotRotate(a: seq<real>, b: seq<real>, k: int)
    requires |a| == |b| == 12
    ensures Dot(Rotate(a, k), Rotate(b, k)) == Dot(a, b)
  {
    forall i | 0 <= i < 12 ensures Mul(Rotate(a, k), Rotate(b, k))[i] == Rotate(Mul(a, b), k)[i] {
      var j := (i - k) % 12;
      assert Rotate(Mul(a, b), k)[i] == a[j] * b[j];
    }
    assert Mul(Rotate(a, k), Rotate(b, k)) == Rotate(Mul(a, b), k);
    SumRotate(Mul(a, b), k);
  }
}

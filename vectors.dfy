/** Points of the search space as exact real vectors, and the few pieces of
    linear algebra the simplex steps need. */
module Vectors {

  type Vec = seq<real>

  function Add(x: Vec, y: Vec): (r: Vec)
    requires |x| == |y|
    ensures |r| == |x|
  {
    seq(|x|, i requires 0 <= i < |x| => x[i] + y[i])
  }

  function Sub(x: Vec, y: Vec): (r: Vec)
    requires |x| == |y|
    ensures |r| == |x|
  {
    seq(|x|, i requires 0 <= i < |x| => x[i] - y[i])
  }

  function Scale(a: real, x: Vec): (r: Vec)
    ensures |r| == |x|
  {
    seq(|x|, i requires 0 <= i < |x| => a * x[i])
  }

  function Zeros(d: nat): (r: Vec)
    ensures |r| == d
  {
    seq(d, i => 0.0)
  }

  function Abs(a: real): (r: real)
  {
    if a < 0.0 then -a else a
  }

  /** Squared Euclidean distance. The source compares the distance itself
      with a tolerance; see NormBelow for why the square is enough. */
  function SqDist(x: Vec, y: Vec): (r: real)
    requires |x| == |y|
    ensures r >= 0.0
  {
    if |x| == 0 then 0.0
    else (x[0] - y[0]) * (x[0] - y[0]) + SqDist(x[1..], y[1..])
  }

  /** A non-negative distance d is below tol exactly when tol is positive
      and d*d is below tol*tol, so the distance test can be stated without
      a square root. */
  lemma NormBelow(d: real, tol: real)
    requires d >= 0.0
    ensures d < tol <==> 0.0 < tol && d * d < tol * tol
  {
    if d < tol {
      var p, q := tol - d, tol + d;
      assert p > 0.0 && q > 0.0;
      assert p * q > 0.0;
      assert p * q == tol * tol - d * d;
    } else if 0.0 < tol {
      assert (d - tol) * (d + tol) >= 0.0;
      assert (d - tol) * (d + tol) == d * d - tol * tol;
    }
  }

  /** Column-wise sum of the first n rows. */
  function SumRows(rows: seq<Vec>, n: nat, d: nat): (r: Vec)
    requires n <= |rows|
    requires forall i :: 0 <= i < n ==> |rows[i]| == d
    ensures |r| == d
  {
    if n == 0 then Zeros(d)
    else Add(SumRows(rows, n - 1, d), rows[n - 1])
  }

  /** Column-wise arithmetic mean of the first n rows. */
  function Mean(rows: seq<Vec>, n: nat, d: nat): (r: Vec)
    requires 0 < n <= |rows|
    requires forall i :: 0 <= i < n ==> |rows[i]| == d
    ensures |r| == d
  {
    Scale(1.0 / (n as real), SumRows(rows, n, d))
  }

  lemma {:induction false} SumRowsBounds(rows: seq<Vec>, n: nat, d: nat, j: nat, lo: real, hi: real)
    requires n <= |rows| && j < d
    requires forall i :: 0 <= i < n ==> |rows[i]| == d
    requires forall i :: 0 <= i < n ==> lo <= rows[i][j] <= hi
    ensures (n as real) * lo <= SumRows(rows, n, d)[j] <= (n as real) * hi
  {
    if n > 0 {
      SumRowsBounds(rows, n - 1, d, j, lo, hi);
      assert SumRows(rows, n, d)[j] == SumRows(rows, n - 1, d)[j] + rows[n - 1][j];
    }
  }

  /** Every coordinate of the mean lies between the smallest and the largest
      value that coordinate takes over the rows averaged. */
  lemma MeanWithinBounds(rows: seq<Vec>, n: nat, d: nat, j: nat, lo: real, hi: real)
    requires 0 < n <= |rows| && j < d
    requires forall i :: 0 <= i < n ==> |rows[i]| == d
    requires forall i :: 0 <= i < n ==> lo <= rows[i][j] <= hi
    ensures lo <= Mean(rows, n, d)[j] <= hi
  {
    var k := n as real;
    var s := SumRows(rows, n, d)[j];
    SumRowsBounds(rows, n, d, j, lo, hi);
    assert Mean(rows, n, d)[j] == (1.0 / k) * s;
    assert (1.0 / k) * (k * lo) == lo && (1.0 / k) * (k * hi) == hi;
  }

  /** When every coordinate difference x[i] - z[i] is t times the
      corresponding y[i] - w[i], the squared distance scales by t*t. */
  lemma {:induction false} ScaledSqDist(x: Vec, z: Vec, y: Vec, w: Vec, t: real)
    requires |x| == |z| == |y| == |w|
    requires forall i :: 0 <= i < |x| ==> x[i] - z[i] == t * (y[i] - w[i])
    ensures SqDist(x, z) == t * t * SqDist(y, w)
  {
    if |x| > 0 {
      ScaledSqDist(x[1..], z[1..], y[1..], w[1..], t);
      var a, c := x[0] - z[0], y[0] - w[0];
      var head, tail := c * c, SqDist(y[1..], w[1..]);
      assert SqDist(x, z) == a * a + SqDist(x[1..], z[1..]);
      assert SqDist(y, w) == head + tail;
      assert a == t * c;
      assert a * a == (t * c) * (t * c) == t * t * head;
      assert t * t * head + t * t * tail == t * t * (head + tail);
    }
  }

  lemma TowardCoordinates(x: Vec, b: Vec, v: Vec, t: real)
    requires |b| == |v| && x == Add(b, Scale(t, Sub(v, b)))
    ensures forall i :: 0 <= i < |x| ==> x[i] - b[i] == t * (v[i] - b[i])
  {
    forall i | 0 <= i < |x| ensures x[i] - b[i] == t * (v[i] - b[i]) {
      assert x[i] == b[i] + t * (v[i] - b[i]);
    }
  }

  /** Moving v toward b by the factor t scales its squared distance to b
      by t*t. */
  lemma TowardSqDist(b: Vec, v: Vec, t: real)
    requires |b| == |v|
    ensures SqDist(Add(b, Scale(t, Sub(v, b))), b) == t * t * SqDist(v, b)
  {
    var x := Add(b, Scale(t, Sub(v, b)));
    TowardCoordinates(x, b, v, t);
    ScaledSqDist(x, b, v, b, t);
  }
}

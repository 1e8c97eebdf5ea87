/** The pure geometry and decision rules of one Nelder-Mead iteration: the
    shape check, the trial points along the line from the worst vertex
    through the centroid of the others, the shrink, the convergence test and
    the four-way choice after a reflection. */
module Simplex {
  import opened Wrappers
  import opened Vectors
  import opened Sorting

  /** Reflection, expansion, contraction and shrink coefficients. */
  const RHO: real := 1.0
  const CHI: real := 2.0
  const PSI: real := 0.5
  const SIGMA: real := 0.5

  predicate Rectangular(rows: seq<Vec>, d: nat)
  {
    forall i :: 0 <= i < |rows| ==> |rows[i]| == d
  }

  /** What the constructor's assertion accepts: a matrix (rows of one
      length) with exactly one more row than columns. */
  predicate ShapeAsserted(rows: seq<Vec>)
  {
    |rows| >= 1 && Rectangular(rows, |rows[0]|) && |rows| == |rows[0]| + 1
  }

  /** A simplex the engine can run on: n+1 vertices in n >= 1 dimensions. */
  predicate WellShaped(rows: seq<Vec>)
  {
    ShapeAsserted(rows) && |rows| >= 2
  }

  /** As written, the constructor's shape assertion admits a single vertex
      with no coordinates; on it the convergence test has no distance to
      take the largest of. */
  lemma ShapeAssertAdmitsPoint()
    ensures var point: seq<Vec> := [[]];
      ShapeAsserted(point) && !WellShaped(point) && Rectangular(point, 0) && SqDistsToBest(point) == []
  {
  }

  /** Requiring at least one coordinate is exactly what the convergence
      test needs: every well-shaped simplex has a non-best vertex whose
      distance can be taken, and a shape-asserted simplex is well-shaped
      as soon as its vertices have a coordinate. */
  lemma WellShapedHasDistances(rows: seq<Vec>)
    ensures WellShaped(rows) <==> ShapeAsserted(rows) && |rows[0]| >= 1
    ensures WellShaped(rows) ==> |SqDistsToBest(rows)| == |rows[0]| >= 1
  {
  }

  // ---------------------------------------------------------------------
  // Convergence test

  /** Squared distance of every non-best vertex to the best one. */
  function SqDistsToBest(rows: seq<Vec>): (r: seq<real>)
    requires |rows| >= 1 && Rectangular(rows, |rows[0]|)
    ensures |r| == |rows| - 1
    ensures forall i :: 1 <= i < |rows| ==> r[i - 1] == SqDist(rows[i], rows[0])
  {
    seq(|rows| - 1, i requires 0 <= i < |rows| - 1 => SqDist(rows[i + 1], rows[0]))
  }

  /** Absolute cost difference of every non-best vertex to the best one. */
  function SpreadsToBest(costs: seq<real>): (r: seq<real>)
    requires |costs| >= 1
    ensures |r| == |costs| - 1
    ensures forall i :: 1 <= i < |costs| ==> r[i - 1] == Abs(costs[i] - costs[0])
  {
    seq(|costs| - 1, i requires 0 <= i < |costs| - 1 => Abs(costs[i + 1] - costs[0]))
  }

  /** The largest distance to the best vertex is below xtol AND the largest
      cost difference to the best cost is below ftol; distances are compared
      squared (see Vectors.NormBelow). Distances and cost differences are
      never negative, so no run converges unless both tolerances are
      positive. */
  predicate Converged(rows: seq<Vec>, costs: seq<real>, xtol: real, ftol: real): (r: bool)
    requires |rows| >= 2 && Rectangular(rows, |rows[0]|) && |costs| >= 2
    ensures r ==> 0.0 < xtol && 0.0 < ftol
  {
    && (0.0 < xtol && MaxOf(SqDistsToBest(rows)) < xtol * xtol)
    && MaxOf(SpreadsToBest(costs)) < ftol
  }

  /** Converged holds exactly when every non-best vertex passes both tests. */
  lemma ConvergedIff(rows: seq<Vec>, costs: seq<real>, xtol: real, ftol: real)
    requires |rows| >= 2 && Rectangular(rows, |rows[0]|) && |costs| == |rows|
    ensures Converged(rows, costs, xtol, ftol) <==>
      0.0 < xtol &&
      forall i :: 1 <= i < |rows| ==>
        SqDist(rows[i], rows[0]) < xtol * xtol && Abs(costs[i] - costs[0]) < ftol
  {
    var d, s := SqDistsToBest(rows), SpreadsToBest(costs);
    MaxBelow(d, xtol * xtol);
    MaxBelow(s, ftol);
    assert (forall i :: 0 <= i < |d| ==> d[i] < xtol * xtol) <==>
      (forall i :: 1 <= i < |rows| ==> SqDist(rows[i], rows[0]) < xtol * xtol);
    assert (forall i :: 0 <= i < |s| ==> s[i] < ftol) <==>
      (forall i :: 1 <= i < |rows| ==> Abs(costs[i] - costs[0]) < ftol);
  }

  // ---------------------------------------------------------------------
  // Trial points

  /** The point at parameter t on the line from the worst vertex w through
      the centroid c: t = 0 is c, t = -1 is w. */
  function Along(c: Vec, w: Vec, t: real): (r: Vec)
    requires |c| == |w|
    ensures |r| == |c|
  {
    seq(|c|, i requires 0 <= i < |c| => c[i] + t * (c[i] - w[i]))
  }

  function Reflection(xbar: Vec, worst: Vec): (r: Vec)
    requires |xbar| == |worst|
    ensures |r| == |xbar|
  {
    Sub(Scale(1.0 + RHO, xbar), Scale(RHO, worst))
  }

  function Expansion(xbar: Vec, worst: Vec): (r: Vec)
    requires |xbar| == |worst|
    ensures |r| == |xbar|
  {
    Sub(Scale(1.0 + RHO * CHI, xbar), Scale(RHO * CHI, worst))
  }

  function OutsideContraction(xbar: Vec, worst: Vec): (r: Vec)
    requires |xbar| == |worst|
    ensures |r| == |xbar|
  {
    Sub(Scale(1.0 + PSI * RHO, xbar), Scale(PSI * RHO, worst))
  }

  function InsideContraction(xbar: Vec, worst: Vec): (r: Vec)
    requires |xbar| == |worst|
    ensures |r| == |xbar|
  {
    Add(Scale(1.0 - PSI, xbar), Scale(PSI, worst))
  }

  /** The four trial points lie on the line from the worst vertex through
      the centroid: reflection one step beyond the centroid, expansion two,
      outside contraction half a step, inside contraction half-way back
      toward the worst vertex. */
  lemma TrialPointsOnLine(c: Vec, w: Vec)
    requires |c| == |w|
    ensures Reflection(c, w) == Along(c, w, 1.0)
    ensures Expansion(c, w) == Along(c, w, 2.0)
    ensures OutsideContraction(c, w) == Along(c, w, 0.5)
    ensures InsideContraction(c, w) == Along(c, w, -0.5)
  {
  }

  /** The centroid of every vertex but the worst (the `xbar` property),
      for vertices of d coordinates. */
  function Centroid(rows: seq<Vec>, d: nat): (r: Vec)
    requires |rows| >= 2 && Rectangular(rows, d)
    ensures |r| == d
  {
    Mean(rows, |rows| - 1, d)
  }

  /** Every coordinate of the centroid lies within the range that coordinate
      spans over the non-worst vertices. */
  lemma CentroidWithinBounds(rows: seq<Vec>, d: nat, j: nat, lo: real, hi: real)
    requires |rows| >= 2 && Rectangular(rows, d) && j < d
    requires forall i :: 0 <= i < |rows| - 1 ==> lo <= rows[i][j] <= hi
    ensures lo <= Centroid(rows, d)[j] <= hi
  {
    MeanWithinBounds(rows, |rows| - 1, d, j, lo, hi);
  }

  // ---------------------------------------------------------------------
  // Shrink

  function ShrinkToward(best: Vec, v: Vec): (r: Vec)
    requires |best| == |v|
    ensures |r| == |v|
  {
    Add(best, Scale(SIGMA, Sub(v, best)))
  }

  /** The simplex after a shrink: the best vertex stays, every other one
      moves half-way toward it. */
  function Shrunk(rows: seq<Vec>): (r: seq<Vec>)
    requires |rows| >= 1 && Rectangular(rows, |rows[0]|)
    ensures |r| == |rows| && Rectangular(r, |rows[0]|)
  {
    seq(|rows|, i requires 0 <= i < |rows| =>
      if i == 0 then rows[0] else ShrinkToward(rows[0], rows[i]))
  }

  /** A shrink keeps the best vertex and divides the squared distance of
      every other vertex to it by four. */
  lemma ShrinkQuartersDistances(rows: seq<Vec>)
    requires |rows| >= 1 && Rectangular(rows, |rows[0]|)
    ensures Shrunk(rows)[0] == rows[0]
    ensures forall i :: 1 <= i < |rows| ==>
      SqDist(Shrunk(rows)[i], rows[0]) == SqDist(rows[i], rows[0]) / 4.0
  {
    forall i | 1 <= i < |rows|
      ensures SqDist(Shrunk(rows)[i], rows[0]) == SqDist(rows[i], rows[0]) / 4.0
    {
      TowardSqDist(rows[0], rows[i], SIGMA);
    }
  }

  // ---------------------------------------------------------------------
  // The choice after a reflection

  datatype Step = Expand | AcceptReflection | Contract | ContractInside

  /** The choice `choose_step` makes from the reflected cost and the cost
      vector (best first, worst last). A contraction is tried exactly when
      the reflected point beats neither the best nor the second-worst cost,
      and the inside one only when it does not beat the worst either. */
  function Classify(fxr: real, costs: seq<real>): (r: Step)
    requires |costs| >= 2
    ensures r in {Contract, ContractInside} <==> costs[0] <= fxr && costs[|costs| - 2] <= fxr
    ensures r == ContractInside ==> costs[|costs| - 1] <= fxr
  {
    var n := |costs| - 1;
    if fxr < costs[0] then Expand
    else if fxr < costs[n - 1] then AcceptReflection
    else if fxr < costs[n] then Contract
    else ContractInside
  }

  /** On a sorted cost vector the choice is fixed by how the reflected cost
      ranks among the vertices: better than all of them, better than the
      second-worst but not the best, better than the worst only, or better
      than none. */
  lemma ClassifyByRank(fxr: real, costs: seq<real>)
    requires |costs| >= 2 && Sorted(costs)
    ensures Classify(fxr, costs) == Expand <==>
      forall i :: 0 <= i < |costs| ==> fxr < costs[i]
    ensures Classify(fxr, costs) == AcceptReflection <==>
      costs[0] <= fxr < costs[|costs| - 2]
    ensures Classify(fxr, costs) == Contract <==>
      fxr < costs[|costs| - 1] && forall i :: 0 <= i < |costs| - 1 ==> costs[i] <= fxr
    ensures Classify(fxr, costs) == ContractInside <==>
      forall i :: 0 <= i < |costs| ==> costs[i] <= fxr
  {
    var n := |costs| - 1;
    assert costs[0] <= costs[n - 1] <= costs[n];
  }

  // ---------------------------------------------------------------------
  // Cost vectors with unknown entries

  predicate AllKnown(fs: seq<Option<real>>)
  {
    forall i :: 0 <= i < |fs| ==> fs[i].Some?
  }

  function Known(fs: seq<Option<real>>): (r: seq<real>)
    requires AllKnown(fs)
    ensures |r| == |fs| && forall i :: 0 <= i < |fs| ==> fs[i] == Some(r[i])
  {
    seq(|fs|, i requires 0 <= i < |fs| => fs[i].value)
  }

  function Somes(s: seq<real>): (r: seq<Option<real>>)
    ensures |r| == |s| && AllKnown(r) && Known(r) == s
  {
    seq(|s|, i requires 0 <= i < |s| => Some(s[i]))
  }

  // ---------------------------------------------------------------------
  // Sorting the simplex

  function Zip(rows: seq<Vec>, costs: seq<real>): (r: seq<(Vec, real)>)
    requires |rows| == |costs|
    ensures |r| == |rows|
  {
    seq(|rows|, i requires 0 <= i < |rows| => (rows[i], costs[i]))
  }

  /** `do_sort`: the argsort of the costs reorders the costs into
      non-decreasing order and the rows by the same permutation, so every
      vertex keeps its own cost. */
  lemma SortKeepsVertexCosts(rows: seq<Vec>, costs: seq<real>)
    requires |rows| == |costs|
    ensures Sorted(Take(costs, Argsort(costs)))
    ensures multiset(Zip(Take(rows, Argsort(costs)), Take(costs, Argsort(costs))))
         == multiset(Zip(rows, costs))
  {
    var p := Argsort(costs);
    var z := Zip(rows, costs);
    assert Zip(Take(rows, p), Take(costs, p)) == Take(z, p);
    ArgsortPermutes(z, costs);
  }

  /** Sorting an already sorted simplex changes nothing. */
  lemma SortIdempotent(rows: seq<Vec>, costs: seq<real>)
    requires |rows| == |costs| && Sorted(costs)
    ensures Take(rows, Argsort(costs)) == rows
    ensures Take(costs, Argsort(costs)) == costs
  {
    ArgsortOfSorted(costs, rows);
    ArgsortOfSorted(costs, costs);
  }
}

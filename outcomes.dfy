/** What each phase promises, stated about the step functions: which
    vertices and costs a phase may touch, what it hands out, and which half
    it names next. */
module Outcomes {
  import opened Wrappers
  import opened Vectors
  import opened Sorting
  import opened Results
  import opened Simplex
  import opened Steps
  import opened Invariant

  /** Every vertex and cost but the worst one is as it was. */
  predicate OnlyWorstChanged(s: EngineState, r: EngineState)
    requires Shaped(s)
  {
    && |r.simplex| == |s.simplex| && |r.funSimplex| == |s.funSimplex|
    && forall i :: 0 <= i < s.dim ==> r.simplex[i] == s.simplex[i] && r.funSimplex[i] == s.funSimplex[i]
  }

  /** `submit_initialize` hands out the n+1 vertices in order;
      `update_initialize` then stores one cost per vertex, in that order,
      and names `new_iter`. */
  lemma InitializeRoundTrip(s: EngineState, values: seq<real>)
    requires Shaped(s) && |values| == s.dim + 1
    ensures AfterSubmitInitialize(s).pending == s.simplex && |s.simplex| == s.dim + 1
    ensures AfterSubmitInitialize(s).nextUpdate == Some(UpdateInitialize)
    ensures var r := AfterUpdateInitialize(AfterSubmitInitialize(s), values);
      && r.simplex == s.simplex
      && AllKnown(r.funSimplex) && Known(r.funSimplex) == values
      && r.nextSubmit == Some(NewIter) && r.nextUpdate == None
  {
  }

  /** `new_iter` sorts the simplex; when both tolerance tests pass it
      finishes, names `finalize`, hands out nothing and leaves the
      iteration count alone; otherwise it counts one iteration, names
      `choose_step`, and hands out exactly 2*xbar - worst. */
  lemma NewIterOutcome(s: EngineState)
    requires Shaped(s) && AllKnown(s.funSimplex)
    ensures var t, r := Sort(s), AfterNewIter(s);
      && r.simplex == t.simplex && r.funSimplex == t.funSimplex
      && Sorted(Known(r.funSimplex))
      && (r.finished <==> Converged(r.simplex, Known(r.funSimplex), s.xtol, s.ftol))
      && r.nextSubmit == None
      && (r.finished ==> r.nextUpdate == Some(Finalize) && r.pending == [] && r.numIter == s.numIter)
      && (!r.finished ==>
            && r.nextUpdate == Some(ChooseStep) && r.numIter == s.numIter + 1 && |r.pending| == 1
            && forall j :: 0 <= j < s.dim ==>
                 r.pending[0][j] == 2.0 * Centroid(r.simplex, s.dim)[j] - r.simplex[s.dim][j])
  {
    var t := Sort(s);
    assert Sort(EnterSubmit(s, NewIter)) == t.(nextSubmit := None, nextUpdate := None);
    SortPermutesCosts(s);
  }

  /** On a sorted simplex `choose_step` caches the reflected point and
      names the half by the rank of the reflected cost: expansion when it
      beats every vertex, `new_iter` when it beats the second-worst but not
      the best, the outside contraction when it beats only the worst, the
      inside contraction when it beats none. */
  lemma ChooseStepByRank(s: EngineState, e: Evaluation)
    requires Shaped(s) && AllKnown(s.funSimplex) && Sorted(Known(s.funSimplex)) && |e.x| == s.dim
    ensures var r, f := AfterChooseStep(s, e), Known(s.funSimplex);
      && r.extraPoints == map["xr" := e]
      && (r.nextSubmit == Some(SubmitExpansion) <==> forall i :: 0 <= i <= s.dim ==> e.cost < f[i])
      && (r.nextSubmit == Some(NewIter) <==> f[0] <= e.cost < f[s.dim - 1])
      && (r.nextSubmit == Some(SubmitContraction) <==>
            e.cost < f[s.dim] && forall i :: 0 <= i < s.dim ==> f[i] <= e.cost)
      && (r.nextSubmit == Some(SubmitInsideContraction) <==> forall i :: 0 <= i <= s.dim ==> f[i] <= e.cost)
  {
    var f := Known(s.funSimplex);
    ClassifyByRank(e.cost, f);
    assert AfterChooseStep(s, e).extraPoints == map["xr" := e];
  }

  /** `choose_step` changes at most the worst vertex, and only when it
      accepts the reflected point, which then takes the worst slot with
      its cost. */
  lemma ChooseStepOnlyWorst(s: EngineState, e: Evaluation)
    requires Shaped(s) && AllKnown(s.funSimplex) && |e.x| == s.dim
    ensures var r := AfterChooseStep(s, e);
      && OnlyWorstChanged(s, r)
      && (r.nextSubmit == Some(NewIter) ==> r.simplex[s.dim] == e.x && r.funSimplex[s.dim] == Some(e.cost))
      && (r.nextSubmit != Some(NewIter) ==> r.simplex == s.simplex && r.funSimplex == s.funSimplex)
  {
    var f := s.funSimplex;
    var t := EnterUpdate(s, ChooseStep, [e.cost]).(extraPoints := map["xr" := e]);
    if f[0].value <= e.cost < f[s.dim - 1].value {
      assert AfterChooseStep(s, e) == UpdateLast(t, e.x, e.cost).(nextSubmit := Some(NewIter));
    }
  }

  /** `update_expansion` puts the expanded point in the worst slot when it
      is strictly better than the cached reflected point and the reflected
      point otherwise (ties go to the reflected point); nothing else moves. */
  lemma UpdateExpansionOutcome(s: EngineState, e: Evaluation)
    requires Shaped(s) && |e.x| == s.dim
    requires "xr" in s.extraPoints && |s.extraPoints["xr"].x| == s.dim
    ensures var r, xr := AfterUpdateExpansion(s, e), s.extraPoints["xr"];
      && OnlyWorstChanged(s, r)
      && (e.cost < xr.cost ==> r.simplex[s.dim] == e.x && r.funSimplex[s.dim] == Some(e.cost))
      && (xr.cost <= e.cost ==> r.simplex[s.dim] == xr.x && r.funSimplex[s.dim] == Some(xr.cost))
      && r.nextSubmit == Some(NewIter)
  {
  }

  /** `update_contraction` accepts the outside contraction only when it is
      strictly better than the cached reflected point; otherwise nothing
      moves and a shrink follows. */
  lemma UpdateContractionOutcome(s: EngineState, e: Evaluation)
    requires Shaped(s) && |e.x| == s.dim && "xr" in s.extraPoints
    ensures var r := AfterUpdateContraction(s, e);
      && OnlyWorstChanged(s, r)
      && (e.cost < s.extraPoints["xr"].cost <==> r.nextSubmit == Some(NewIter))
      && (r.nextSubmit == Some(NewIter) ==> r.simplex[s.dim] == e.x && r.funSimplex[s.dim] == Some(e.cost))
      && (r.nextSubmit == Some(SubmitShrink) ==> r.simplex == s.simplex && r.funSimplex == s.funSimplex)
  {
  }

  /** `update_inside_contraction` accepts the inside contraction only when
      it is strictly better than the worst vertex; otherwise nothing moves
      and a shrink follows. */
  lemma UpdateInsideContractionOutcome(s: EngineState, e: Evaluation)
    requires Shaped(s) && |e.x| == s.dim && s.funSimplex[s.dim].Some?
    ensures var r := AfterUpdateInsideContraction(s, e);
      && OnlyWorstChanged(s, r)
      && (e.cost < s.funSimplex[s.dim].value <==> r.nextSubmit == Some(NewIter))
      && (r.nextSubmit == Some(NewIter) ==> r.simplex[s.dim] == e.x && r.funSimplex[s.dim] == Some(e.cost))
      && (r.nextSubmit == Some(SubmitShrink) ==> r.simplex == s.simplex && r.funSimplex == s.funSimplex)
  {
  }

  /** `submit_shrink` leaves the best vertex and its cost alone, moves every
      other vertex half-way toward it (a quarter of its squared distance),
      forgets their costs, and hands out exactly those n vertices;
      `update_shrink` then stores n costs in slots 1..n and leaves the best
      one alone, so every cost is known again. */
  lemma ShrinkRoundTrip(s: EngineState, values: seq<real>)
    requires Shaped(s) && |values| == s.dim
    ensures var r := AfterSubmitShrink(s);
      && r.simplex[0] == s.simplex[0] && r.funSimplex[0] == s.funSimplex[0]
      && (forall i :: 1 <= i <= s.dim ==>
            && r.funSimplex[i].None?
            && SqDist(r.simplex[i], s.simplex[0]) == SqDist(s.simplex[i], s.simplex[0]) / 4.0)
      && |r.pending| == s.dim && (forall i :: 1 <= i <= s.dim ==> r.pending[i - 1] == r.simplex[i])
    ensures var r, u := AfterSubmitShrink(s), AfterUpdateShrink(AfterSubmitShrink(s), values);
      && u.simplex == r.simplex && u.funSimplex[0] == s.funSimplex[0]
      && (forall i :: 1 <= i <= s.dim ==> u.funSimplex[i] == Some(values[i - 1]))
      && (s.funSimplex[0].Some? ==> AllKnown(u.funSimplex))
  {
    ShrinkQuartersDistances(s.simplex);
    var u := AfterUpdateShrink(AfterSubmitShrink(s), values);
    assert u.funSimplex == [s.funSimplex[0]] + Somes(values);
    forall i | 1 <= i <= s.dim
      ensures u.funSimplex[i] == Some(values[i - 1])
    {
      assert Known(Somes(values))[i - 1] == values[i - 1];
    }
  }
}

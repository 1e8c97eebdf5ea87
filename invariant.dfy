/** What holds of the engine's state between any two calls when it is
    driven as its protocol prescribes: each update half receives the costs
    of exactly the points the preceding submit half handed out. */
module Invariant {
  import opened Wrappers
  import opened Vectors
  import opened Sorting
  import opened Results
  import opened Simplex
  import opened Steps

  predicate Initializing(s: EngineState)
  {
    s.nextSubmit == Some(SubmitInitialize) || s.nextUpdate == Some(UpdateInitialize)
  }

  predicate Expanding(s: EngineState)
  {
    s.nextSubmit == Some(SubmitExpansion) || s.nextUpdate == Some(UpdateExpansion)
  }

  predicate Contracting(s: EngineState)
  {
    s.nextSubmit == Some(SubmitContraction) || s.nextUpdate == Some(UpdateContraction)
  }

  predicate ContractingInside(s: EngineState)
  {
    s.nextSubmit == Some(SubmitInsideContraction) || s.nextUpdate == Some(UpdateInsideContraction)
  }

  /** The halves in which the simplex is still in the order `new_iter`
      left it. */
  predicate SortedPhase(s: EngineState)
  {
    || s.nextUpdate == Some(ChooseStep)
    || Expanding(s) || Contracting(s) || ContractingInside(s)
    || s.nextSubmit == Some(SubmitShrink)
    || s.finished
  }

  /** Every stored point has dim coordinates. */
  predicate WellFormed(s: EngineState)
  {
    && Shaped(s)
    && (forall k :: k in s.extraPoints ==> |s.extraPoints[k].x| == s.dim)
    && Rectangular(s.pending, s.dim)
  }

  /** At most one phase field is set, none only once finished, and the points
      handed out are those the pending update half is about. */
  predicate PhasesValid(s: EngineState)
    requires Shaped(s)
  {
    var xbar, worst := Centroid(s.simplex, s.dim), s.simplex[s.dim];
    && !(s.nextSubmit.Some? && s.nextUpdate.Some?)
    && (s.nextSubmit.None? && s.nextUpdate.None? ==> s.finished)
    && (s.finished ==> s.nextSubmit.None? && (s.nextUpdate.None? || s.nextUpdate == Some(Finalize)))
    && (s.nextUpdate == Some(Finalize) ==> s.finished && s.pending == [])
    && (s.nextUpdate == Some(UpdateInitialize) ==> s.pending == s.simplex)
    && (s.nextUpdate == Some(ChooseStep) ==> s.pending == [Reflection(xbar, worst)])
    && (s.nextUpdate == Some(UpdateExpansion) ==> s.pending == [Expansion(xbar, worst)])
    && (s.nextUpdate == Some(UpdateContraction) ==> s.pending == [OutsideContraction(xbar, worst)])
    && (s.nextUpdate == Some(UpdateInsideContraction) ==> s.pending == [InsideContraction(xbar, worst)])
    && (s.nextUpdate == Some(UpdateShrink) ==> s.pending == s.simplex[1..])
  }

  /** Which costs are known, and when they are in order. */
  predicate CostsKnown(s: EngineState)
    requires Shaped(s)
  {
    && (Initializing(s) ==> s.history == [] && forall i :: 0 <= i <= s.dim ==> s.funSimplex[i].None?)
    && (!Initializing(s) ==> s.history != [])
    && (!Initializing(s) && s.nextUpdate != Some(UpdateShrink) ==> AllKnown(s.funSimplex))
    && (SortedPhase(s) ==> AllKnown(s.funSimplex) && Sorted(Known(s.funSimplex)))
  }

  /** How the cached reflected point ranks, in the halves that use it. */
  predicate ReflectionCached(s: EngineState)
    requires Shaped(s)
  {
    var f := s.funSimplex;
    && (Expanding(s) ==>
          "xr" in s.extraPoints && f[0].Some? && s.extraPoints["xr"].cost < f[0].value)
    && (Contracting(s) ==>
          "xr" in s.extraPoints && f[s.dim - 1].Some? && f[s.dim].Some?
          && f[s.dim - 1].value <= s.extraPoints["xr"].cost < f[s.dim].value)
    && (ContractingInside(s) ==>
          "xr" in s.extraPoints && f[s.dim].Some? && f[s.dim].value <= s.extraPoints["xr"].cost)
  }

  /** No known cost in `fs` is below m. */
  predicate Floor(fs: seq<Option<real>>, m: real)
  {
    forall i :: 0 <= i < |fs| && fs[i].Some? ==> m <= fs[i].value
  }

  /** Some entry of `fs` holds exactly m. */
  predicate HeldBy(fs: seq<Option<real>>, m: real)
  {
    exists i :: 0 <= i < |fs| && fs[i] == Some(m)
  }

  /** No cost held is below the least cost seen so far, and that least
      cost is held by a vertex (by the cached reflected point instead while
      an expansion is pending; by the best vertex during a shrink). */
  predicate BestKept(s: EngineState)
  {
    && (s.history != [] ==> Floor(s.funSimplex, MinOf(s.history)))
    && (s.history != [] && Expanding(s) ==>
          "xr" in s.extraPoints && s.extraPoints["xr"].cost == MinOf(s.history))
    && (s.history != [] && !Expanding(s) ==> HeldBy(s.funSimplex, MinOf(s.history)))
    && (s.nextUpdate == Some(UpdateShrink) ==>
          s.history != [] && |s.funSimplex| > 0 && s.funSimplex[0] == Some(MinOf(s.history)))
  }

  predicate Inv(s: EngineState)
  {
    WellFormed(s) && PhasesValid(s) && CostsKnown(s) && ReflectionCached(s) && BestKept(s)
  }

  // ---------------------------------------------------------------------
  // Consequences

  /** In the sorted halves (bar a pending expansion) the best vertex holds
      the least cost seen so far. */
  lemma BestIsFirst(s: EngineState)
    requires Inv(s) && SortedPhase(s) && !Expanding(s) && !Initializing(s)
    ensures s.funSimplex[0] == Some(MinOf(s.history))
    ensures forall x :: x in s.history ==> s.funSimplex[0].value <= x
  {
    var f := Known(s.funSimplex);
    var i :| 0 <= i < |s.funSimplex| && s.funSimplex[i] == Some(MinOf(s.history));
    assert f[0] <= f[i];
    forall x | x in s.history
      ensures s.funSimplex[0].value <= x
    {
      var k := IndexOf(s.history, x);
    }
  }

  // ---------------------------------------------------------------------
  // The least cost seen, on cost vectors

  /** The new least cost after appending one cost to a non-empty history. */
  lemma MinOfAppendOne(h: seq<real>, x: real)
    requires h != []
    ensures MinOf(h + [x]) == if MinOf(h) <= x then MinOf(h) else x
  {
    MinOfAppend(h, [x]);
    assert MinOf([x]) == x;
  }

  /** A new cost that is not a new least one leaves floor and holder as
      they were. */
  lemma KeepAbove(fs: seq<Option<real>>, h: seq<real>, x: real)
    requires h != [] && MinOf(h) <= x && Floor(fs, MinOf(h)) && HeldBy(fs, MinOf(h))
    ensures Floor(fs, MinOf(h + [x])) && HeldBy(fs, MinOf(h + [x]))
  {
    MinOfAppendOne(h, x);
  }

  /** A new least cost that no vertex takes (it is cached aside) is still a
      floor for the vertex costs. */
  lemma KeepBelow(fs: seq<Option<real>>, h: seq<real>, x: real)
    requires h != [] && x < MinOf(h) && Floor(fs, MinOf(h))
    ensures MinOf(h + [x]) == x && Floor(fs, x)
  {
    MinOfAppendOne(h, x);
  }

  /** BestKept outside an expansion and a shrink, from the floor and the
      holder of the least cost. */
  lemma BestKeptHeld(r: EngineState, m: real)
    requires r.history != [] && m == MinOf(r.history)
    requires !Expanding(r) && r.nextUpdate != Some(UpdateShrink)
    requires Floor(r.funSimplex, m) && HeldBy(r.funSimplex, m)
    ensures BestKept(r)
  {
  }

  /** A step that replaces the worst vertex while the best one holds the
      least cost keeps BestKept. */
  lemma BestKeptReplacingWorst(s: EngineState, r: EngineState, x: real)
    requires |s.funSimplex| >= 2 && s.history != []
    requires s.funSimplex[0] == Some(MinOf(s.history)) && Floor(s.funSimplex, MinOf(s.history))
    requires r.history == s.history + [x] && r.funSimplex == s.funSimplex[|s.funSimplex| - 1 := Some(x)]
    requires !Expanding(r) && r.nextUpdate != Some(UpdateShrink)
    ensures BestKept(r)
  {
    ReplaceLast(s.funSimplex, s.history, x);
    BestKeptHeld(r, MinOf(s.history + [x]));
  }

  /** A step that gives the worst vertex the new least cost keeps
      BestKept. */
  lemma BestKeptTakingLeast(s: EngineState, r: EngineState, x: real, y: real)
    requires |s.funSimplex| >= 1 && s.history != [] && Floor(s.funSimplex, MinOf(s.history))
    requires y == MinOf(s.history + [x])
    requires r.history == s.history + [x] && r.funSimplex == s.funSimplex[|s.funSimplex| - 1 := Some(y)]
    requires !Expanding(r) && r.nextUpdate != Some(UpdateShrink)
    ensures BestKept(r)
  {
    ReplaceLastByLeast(s.funSimplex, s.history, x, y);
    BestKeptHeld(r, y);
  }

  /** A step that leaves the costs alone and records a cost that is not a
      new least one keeps BestKept. */
  lemma BestKeptKeeping(s: EngineState, r: EngineState, x: real)
    requires s.history != [] && MinOf(s.history) <= x
    requires Floor(s.funSimplex, MinOf(s.history)) && HeldBy(s.funSimplex, MinOf(s.history))
    requires r.history == s.history + [x] && r.funSimplex == s.funSimplex
    requires !Expanding(r) && r.nextUpdate != Some(UpdateShrink)
    ensures BestKept(r)
  {
    KeepAbove(s.funSimplex, s.history, x);
    BestKeptHeld(r, MinOf(s.history + [x]));
  }

  /** While the best entry holds the least cost, giving the worst entry the
      new cost keeps a floor and a holder of the new least cost. */
  lemma ReplaceLast(fs: seq<Option<real>>, h: seq<real>, x: real)
    requires |fs| >= 2 && h != [] && fs[0] == Some(MinOf(h)) && Floor(fs, MinOf(h))
    ensures Floor(fs[|fs| - 1 := Some(x)], MinOf(h + [x]))
    ensures HeldBy(fs[|fs| - 1 := Some(x)], MinOf(h + [x]))
  {
    MinOfAppendOne(h, x);
    var g := fs[|fs| - 1 := Some(x)];
    if x < MinOf(h) {
      assert g[|fs| - 1] == Some(MinOf(h + [x]));
    } else {
      assert g[0] == Some(MinOf(h + [x]));
    }
  }

  /** Giving the worst entry the new least cost itself. */
  lemma ReplaceLastByLeast(fs: seq<Option<real>>, h: seq<real>, x: real, y: real)
    requires |fs| >= 1 && h != [] && Floor(fs, MinOf(h)) && y == MinOf(h + [x])
    ensures Floor(fs[|fs| - 1 := Some(y)], y) && HeldBy(fs[|fs| - 1 := Some(y)], y)
  {
    MinOfAppendOne(h, x);
    assert fs[|fs| - 1 := Some(y)][|fs| - 1] == Some(y);
  }

  /** After a shrink the best entry keeps the old least cost and the others
      take the new costs. */
  lemma ShrinkCosts(f0: real, h: seq<real>, c: seq<real>)
    requires h != [] && c != [] && f0 == MinOf(h)
    ensures Floor([Some(f0)] + Somes(c), MinOf(h + c))
    ensures HeldBy([Some(f0)] + Somes(c), MinOf(h + c))
  {
    MinOfAppend(h, c);
    var g := [Some(f0)] + Somes(c);
    forall i | 1 <= i < |g|
      ensures g[i] == Some(c[i - 1])
    {
      assert Known(Somes(c))[i - 1] == c[i - 1];
    }
    FirstAndRest(g, f0, c);
  }

  /** A cost vector made of f0 followed by the costs c has the smaller of
      f0 and the least of c as a floor, and holds it. */
  lemma FirstAndRest(g: seq<Option<real>>, f0: real, c: seq<real>)
    requires c != [] && |g| == |c| + 1 && g[0] == Some(f0)
    requires forall i :: 1 <= i < |g| ==> g[i] == Some(c[i - 1])
    ensures Floor(g, if f0 <= MinOf(c) then f0 else MinOf(c))
    ensures HeldBy(g, if f0 <= MinOf(c) then f0 else MinOf(c))
  {
    var mc := MinOf(c);
    if mc < f0 {
      var k := IndexOf(c, mc);
      assert g[k + 1] == Some(mc);
    }
  }

  /** Sorting keeps every cost a vertex holds, so it keeps a floor of the
      costs and a vertex holding it. */
  lemma SortKeepsHeldCosts(s: EngineState, m: real)
    requires Shaped(s) && AllKnown(s.funSimplex)
    requires Floor(s.funSimplex, m) && HeldBy(s.funSimplex, m)
    ensures Floor(Sort(s).funSimplex, m) && HeldBy(Sort(s).funSimplex, m)
  {
    var c, c' := Known(s.funSimplex), Known(Sort(s).funSimplex);
    SortPermutesCosts(s);
    var i :| 0 <= i < |s.funSimplex| && s.funSimplex[i] == Some(m);
    assert c[i] in multiset(c');
    var k := IndexOf(c', c[i]);
    assert Sort(s).funSimplex[k] == Some(m);
    forall j | 0 <= j < |c'|
      ensures m <= Sort(s).funSimplex[j].value
    {
      assert c'[j] in multiset(c);
      var l := IndexOf(c, c'[j]);
      assert s.funSimplex[l].value == c'[j];
    }
  }

  /** Sorting permutes the costs and leaves them in order. */
  lemma SortPermutesCosts(s: EngineState)
    requires Shaped(s) && AllKnown(s.funSimplex)
    ensures Sorted(Known(Sort(s).funSimplex))
    ensures multiset(Known(Sort(s).funSimplex)) == multiset(Known(s.funSimplex))
  {
    var c := Known(s.funSimplex);
    ArgsortSorts(c);
    ArgsortPermutes(c, c);
  }

  /** The run starts in a state satisfying the invariant. */
  lemma InitialInv(rows: seq<Vec>, xtol: real, ftol: real, numIter: int, maxIter: int)
    requires WellShaped(rows)
    ensures Inv(Initial(rows, xtol, ftol, numIter, maxIter))
  {
  }

  // ---------------------------------------------------------------------
  // Each half keeps the invariant

  lemma SubmitInitializeKeeps(s: EngineState)
    requires Inv(s) && s.nextSubmit == Some(SubmitInitialize)
    ensures Inv(AfterSubmitInitialize(s))
  {
  }

  lemma UpdateInitializeShape(s: EngineState, values: seq<real>)
    requires Inv(s) && s.nextUpdate == Some(UpdateInitialize) && |values| == |s.pending|
    ensures WellFormed(AfterUpdateInitialize(s, values)) && PhasesValid(AfterUpdateInitialize(s, values))
  {
    var r := AfterUpdateInitialize(s, values);
    assert !r.finished && r.nextSubmit == Some(NewIter) && r.nextUpdate == None;
  }

  lemma UpdateInitializeCosts(s: EngineState, values: seq<real>)
    requires Inv(s) && s.nextUpdate == Some(UpdateInitialize) && |values| == |s.pending|
    ensures CostsKnown(AfterUpdateInitialize(s, values)) && ReflectionCached(AfterUpdateInitialize(s, values))
  {
    var r := AfterUpdateInitialize(s, values);
    assert !r.finished && r.nextSubmit == Some(NewIter) && r.nextUpdate == None;
    assert !Initializing(r) && !SortedPhase(r);
    assert !Expanding(r) && !Contracting(r) && !ContractingInside(r);
  }

  lemma UpdateInitializeBest(s: EngineState, values: seq<real>)
    requires s.history == [] && values != []
    ensures BestKept(AfterUpdateInitialize(s, values))
  {
    var r := AfterUpdateInitialize(s, values);
    assert !Expanding(r) && r.nextUpdate != Some(UpdateShrink);
    assert r.history == values && r.funSimplex == Somes(values);
    var k := IndexOf(values, MinOf(values));
    assert r.funSimplex[k] == Some(MinOf(values));
  }

  lemma UpdateInitializeKeeps(s: EngineState, values: seq<real>)
    requires Inv(s) && s.nextUpdate == Some(UpdateInitialize) && |values| == |s.pending|
    ensures Inv(AfterUpdateInitialize(s, values))
  {
    UpdateInitializeShape(s, values);
    UpdateInitializeCosts(s, values);
    UpdateInitializeBest(s, values);
  }

  lemma NewIterShape(s: EngineState)
    requires Inv(s) && s.nextSubmit == Some(NewIter)
    ensures WellFormed(AfterNewIter(s)) && PhasesValid(AfterNewIter(s))
  {
  }

  lemma NewIterCosts(s: EngineState)
    requires Inv(s) && s.nextSubmit == Some(NewIter)
    ensures CostsKnown(AfterNewIter(s)) && ReflectionCached(AfterNewIter(s))
  {
    assert !Initializing(s) && !s.finished;
    SortPermutesCosts(EnterSubmit(s, NewIter));
  }

  lemma NewIterBest(s: EngineState)
    requires Shaped(s) && AllKnown(s.funSimplex) && s.history != []
    requires Floor(s.funSimplex, MinOf(s.history)) && HeldBy(s.funSimplex, MinOf(s.history))
    ensures BestKept(AfterNewIter(s))
  {
    var t := Sort(EnterSubmit(s, NewIter));
    SortKeepsHeldCosts(EnterSubmit(s, NewIter), MinOf(s.history));
    var r := AfterNewIter(s);
    assert r.history == s.history && r.funSimplex == t.funSimplex;
  }

  lemma NewIterKeeps(s: EngineState)
    requires Inv(s) && s.nextSubmit == Some(NewIter)
    ensures Inv(AfterNewIter(s))
  {
    NewIterShape(s);
    NewIterCosts(s);
    assert !Initializing(s) && !Expanding(s);
    NewIterBest(s);
  }

  lemma FinalizeKeeps(s: EngineState)
    requires Inv(s) && s.nextUpdate == Some(Finalize)
    ensures Inv(AfterFinalize(s))
  {
    var r := AfterFinalize(s);
    assert r.history == s.history && r.nextSubmit == None && r.nextUpdate == None;
  }

  lemma ChooseStepShape(s: EngineState, e: Evaluation)
    requires Inv(s) && s.nextUpdate == Some(ChooseStep) && [e.x] == s.pending
    ensures WellFormed(AfterChooseStep(s, e)) && PhasesValid(AfterChooseStep(s, e))
  {
    var r := AfterChooseStep(s, e);
    assert r.pending == s.pending && r.extraPoints == map["xr" := e];
  }

  lemma ChooseStepCosts(s: EngineState, e: Evaluation)
    requires Inv(s) && s.nextUpdate == Some(ChooseStep) && [e.x] == s.pending
    ensures CostsKnown(AfterChooseStep(s, e)) && ReflectionCached(AfterChooseStep(s, e))
  {
    var f := Known(s.funSimplex);
    var t := EnterUpdate(s, ChooseStep, [e.cost]).(extraPoints := map["xr" := e]);
    var r := AfterChooseStep(s, e);
    assert Known(t.funSimplex) == f && t.history != [];
    if e.cost < f[0] {
      assert r == t.(nextSubmit := Some(SubmitExpansion));
    } else if e.cost < f[s.dim - 1] {
      assert r == UpdateLast(t, e.x, e.cost).(nextSubmit := Some(NewIter));
      assert !SortedPhase(r) && !Initializing(r) && !Expanding(r);
      assert AllKnown(r.funSimplex);
    } else if e.cost < f[s.dim] {
      assert r == t.(nextSubmit := Some(SubmitContraction));
    } else {
      assert r == t.(nextSubmit := Some(SubmitInsideContraction));
    }
  }

  /** What `choose_step` does to the costs and the history, branch by
      branch. */
  lemma ChooseStepFields(s: EngineState, e: Evaluation)
    requires Shaped(s) && AllKnown(s.funSimplex) && |e.x| == s.dim
    ensures AfterChooseStep(s, e).history == s.history + [e.cost]
    ensures e.cost < s.funSimplex[0].value ==>
      AfterChooseStep(s, e).funSimplex == s.funSimplex && Expanding(AfterChooseStep(s, e))
    ensures s.funSimplex[0].value <= e.cost < s.funSimplex[s.dim - 1].value ==>
      AfterChooseStep(s, e).funSimplex == s.funSimplex[s.dim := Some(e.cost)] && !Expanding(AfterChooseStep(s, e))
    ensures s.funSimplex[0].value <= e.cost && s.funSimplex[s.dim - 1].value <= e.cost ==>
      AfterChooseStep(s, e).funSimplex == s.funSimplex && !Expanding(AfterChooseStep(s, e))
  {
  }

  lemma ChooseStepBestExpand(s: EngineState, e: Evaluation)
    requires Shaped(s) && AllKnown(s.funSimplex) && |e.x| == s.dim
    requires s.history != [] && Floor(s.funSimplex, MinOf(s.history))
    requires e.cost < s.funSimplex[0].value && s.funSimplex[0].value == MinOf(s.history)
    ensures BestKept(AfterChooseStep(s, e))
  {
    KeepBelow(s.funSimplex, s.history, e.cost);
    var r := AfterChooseStep(s, e);
    assert r == EnterUpdate(s, ChooseStep, [e.cost]).(extraPoints := map["xr" := e], nextSubmit := Some(SubmitExpansion));
  }

  lemma ChooseStepKeeps(s: EngineState, e: Evaluation)
    requires Inv(s) && s.nextUpdate == Some(ChooseStep) && [e.x] == s.pending
    ensures Inv(AfterChooseStep(s, e))
  {
    ChooseStepShape(s, e);
    ChooseStepCosts(s, e);
    assert !Initializing(s) && !Expanding(s);
    BestIsFirst(s);
    var f := Known(s.funSimplex);
    if e.cost < f[0] {
      ChooseStepBestExpand(s, e);
    } else {
      ChooseStepFields(s, e);
      if e.cost < f[s.dim - 1] {
        assert s.funSimplex[s.dim := Some(e.cost)] == s.funSimplex[|s.funSimplex| - 1 := Some(e.cost)];
        BestKeptReplacingWorst(s, AfterChooseStep(s, e), e.cost);
      } else {
        BestKeptKeeping(s, AfterChooseStep(s, e), e.cost);
      }
    }
  }

  lemma SubmitExpansionKeeps(s: EngineState)
    requires Inv(s) && s.nextSubmit == Some(SubmitExpansion)
    ensures Inv(AfterSubmitExpansion(s))
  {
  }

  lemma UpdateExpansionShape(s: EngineState, e: Evaluation)
    requires Inv(s) && s.nextUpdate == Some(UpdateExpansion) && [e.x] == s.pending
    ensures "xr" in s.extraPoints && |s.extraPoints["xr"].x| == s.dim
    ensures WellFormed(AfterUpdateExpansion(s, e)) && PhasesValid(AfterUpdateExpansion(s, e))
    ensures CostsKnown(AfterUpdateExpansion(s, e)) && ReflectionCached(AfterUpdateExpansion(s, e))
  {
    var r := AfterUpdateExpansion(s, e);
    assert r.pending == s.pending && r.extraPoints == s.extraPoints;
    assert r.history == s.history + [e.cost];
  }

  /** What `update_expansion` does to the costs and the history. */
  lemma UpdateExpansionFields(s: EngineState, e: Evaluation)
    requires Shaped(s) && |e.x| == s.dim
    requires "xr" in s.extraPoints && |s.extraPoints["xr"].x| == s.dim
    ensures AfterUpdateExpansion(s, e).history == s.history + [e.cost]
    ensures !Expanding(AfterUpdateExpansion(s, e))
    ensures AfterUpdateExpansion(s, e).funSimplex == s.funSimplex[|s.funSimplex| - 1 :=
      Some(if e.cost < s.extraPoints["xr"].cost then e.cost else s.extraPoints["xr"].cost)]
  {
  }

  lemma UpdateExpansionBest(s: EngineState, e: Evaluation)
    requires Shaped(s) && |e.x| == s.dim
    requires "xr" in s.extraPoints && |s.extraPoints["xr"].x| == s.dim
    requires s.history != [] && s.extraPoints["xr"].cost == MinOf(s.history)
    requires Floor(s.funSimplex, MinOf(s.history))
    ensures BestKept(AfterUpdateExpansion(s, e))
  {
    var fxr := s.extraPoints["xr"].cost;
    var y := if e.cost < fxr then e.cost else fxr;
    MinOfAppendOne(s.history, e.cost);
    UpdateExpansionFields(s, e);
    BestKeptTakingLeast(s, AfterUpdateExpansion(s, e), e.cost, y);
  }

  lemma UpdateExpansionKeeps(s: EngineState, e: Evaluation)
    requires Inv(s) && s.nextUpdate == Some(UpdateExpansion) && [e.x] == s.pending
    ensures Inv(AfterUpdateExpansion(s, e))
  {
    UpdateExpansionShape(s, e);
    assert !Initializing(s) && Expanding(s);
    UpdateExpansionBest(s, e);
  }

  lemma SubmitContractionKeeps(s: EngineState)
    requires Inv(s) && s.nextSubmit == Some(SubmitContraction)
    ensures Inv(AfterSubmitContraction(s))
  {
  }

  lemma UpdateContractionShape(s: EngineState, e: Evaluation)
    requires Inv(s) && s.nextUpdate == Some(UpdateContraction) && [e.x] == s.pending
    ensures "xr" in s.extraPoints
    ensures WellFormed(AfterUpdateContraction(s, e)) && PhasesValid(AfterUpdateContraction(s, e))
    ensures CostsKnown(AfterUpdateContraction(s, e)) && ReflectionCached(AfterUpdateContraction(s, e))
  {
    var r := AfterUpdateContraction(s, e);
    assert r.pending == s.pending && r.extraPoints == s.extraPoints;
    assert r.history == s.history + [e.cost];
    if e.cost < s.extraPoints["xr"].cost {
      assert r.funSimplex == s.funSimplex[s.dim := Some(e.cost)];
    } else {
      assert r.funSimplex == s.funSimplex;
    }
  }

  /** What `update_contraction` does to the costs and the history. */
  lemma UpdateContractionFields(s: EngineState, e: Evaluation)
    requires Shaped(s) && |e.x| == s.dim && "xr" in s.extraPoints
    ensures AfterUpdateContraction(s, e).history == s.history + [e.cost]
    ensures !Expanding(AfterUpdateContraction(s, e))
    ensures e.cost < s.extraPoints["xr"].cost ==>
      AfterUpdateContraction(s, e).funSimplex == s.funSimplex[|s.funSimplex| - 1 := Some(e.cost)]
    ensures s.extraPoints["xr"].cost <= e.cost ==> AfterUpdateContraction(s, e).funSimplex == s.funSimplex
  {
  }

  lemma UpdateContractionBest(s: EngineState, e: Evaluation)
    requires Shaped(s) && |e.x| == s.dim && "xr" in s.extraPoints
    requires s.history != [] && s.funSimplex[0] == Some(MinOf(s.history))
    requires Floor(s.funSimplex, MinOf(s.history))
    requires MinOf(s.history) <= s.extraPoints["xr"].cost
    ensures BestKept(AfterUpdateContraction(s, e))
  {
    UpdateContractionFields(s, e);
    if e.cost < s.extraPoints["xr"].cost {
      BestKeptReplacingWorst(s, AfterUpdateContraction(s, e), e.cost);
    } else {
      assert HeldBy(s.funSimplex, MinOf(s.history));
      BestKeptKeeping(s, AfterUpdateContraction(s, e), e.cost);
    }
  }

  lemma UpdateContractionKeeps(s: EngineState, e: Evaluation)
    requires Inv(s) && s.nextUpdate == Some(UpdateContraction) && [e.x] == s.pending
    ensures Inv(AfterUpdateContraction(s, e))
  {
    UpdateContractionShape(s, e);
    assert !Initializing(s) && !Expanding(s) && Contracting(s);
    BestIsFirst(s);
    assert Known(s.funSimplex)[0] <= Known(s.funSimplex)[s.dim - 1];
    UpdateContractionBest(s, e);
  }

  lemma SubmitInsideContractionKeeps(s: EngineState)
    requires Inv(s) && s.nextSubmit == Some(SubmitInsideContraction)
    ensures Inv(AfterSubmitInsideContraction(s))
  {
  }

  lemma UpdateInsideContractionShape(s: EngineState, e: Evaluation)
    requires Inv(s) && s.nextUpdate == Some(UpdateInsideContraction) && [e.x] == s.pending
    ensures WellFormed(AfterUpdateInsideContraction(s, e)) && PhasesValid(AfterUpdateInsideContraction(s, e))
    ensures CostsKnown(AfterUpdateInsideContraction(s, e)) && ReflectionCached(AfterUpdateInsideContraction(s, e))
  {
    var r := AfterUpdateInsideContraction(s, e);
    assert r.pending == s.pending && r.extraPoints == s.extraPoints;
    assert r.history == s.history + [e.cost];
    if e.cost < s.funSimplex[s.dim].value {
      assert r.funSimplex == s.funSimplex[s.dim := Some(e.cost)];
    } else {
      assert r.funSimplex == s.funSimplex;
    }
  }

  /** What `update_inside_contraction` does to the costs and the history. */
  lemma UpdateInsideContractionFields(s: EngineState, e: Evaluation)
    requires Shaped(s) && |e.x| == s.dim && s.funSimplex[s.dim].Some?
    ensures AfterUpdateInsideContraction(s, e).history == s.history + [e.cost]
    ensures !Expanding(AfterUpdateInsideContraction(s, e))
    ensures e.cost < s.funSimplex[s.dim].value ==>
      AfterUpdateInsideContraction(s, e).funSimplex == s.funSimplex[|s.funSimplex| - 1 := Some(e.cost)]
    ensures s.funSimplex[s.dim].value <= e.cost ==> AfterUpdateInsideContraction(s, e).funSimplex == s.funSimplex
  {
  }

  lemma UpdateInsideContractionBest(s: EngineState, e: Evaluation)
    requires Shaped(s) && |e.x| == s.dim && s.funSimplex[s.dim].Some?
    requires s.history != [] && s.funSimplex[0] == Some(MinOf(s.history))
    requires Floor(s.funSimplex, MinOf(s.history))
    ensures BestKept(AfterUpdateInsideContraction(s, e))
  {
    UpdateInsideContractionFields(s, e);
    if e.cost < s.funSimplex[s.dim].value {
      BestKeptReplacingWorst(s, AfterUpdateInsideContraction(s, e), e.cost);
    } else {
      assert HeldBy(s.funSimplex, MinOf(s.history));
      BestKeptKeeping(s, AfterUpdateInsideContraction(s, e), e.cost);
    }
  }

  lemma UpdateInsideContractionKeeps(s: EngineState, e: Evaluation)
    requires Inv(s) && s.nextUpdate == Some(UpdateInsideContraction) && [e.x] == s.pending
    ensures Inv(AfterUpdateInsideContraction(s, e))
  {
    UpdateInsideContractionShape(s, e);
    assert !Initializing(s) && !Expanding(s) && ContractingInside(s);
    BestIsFirst(s);
    UpdateInsideContractionBest(s, e);
  }

  lemma SubmitShrinkKeeps(s: EngineState)
    requires Inv(s) && s.nextSubmit == Some(SubmitShrink)
    ensures Inv(AfterSubmitShrink(s))
  {
    assert !Initializing(s) && !Expanding(s);
    BestIsFirst(s);
    var r := AfterSubmitShrink(s);
    assert r.history == s.history && r.funSimplex[0] == s.funSimplex[0];
  }

  lemma UpdateShrinkShape(s: EngineState, c: seq<real>)
    requires Inv(s) && s.nextUpdate == Some(UpdateShrink) && |c| == |s.pending|
    ensures |c| == s.dim
    ensures WellFormed(AfterUpdateShrink(s, c)) && PhasesValid(AfterUpdateShrink(s, c))
    ensures CostsKnown(AfterUpdateShrink(s, c)) && ReflectionCached(AfterUpdateShrink(s, c))
  {
    assert |s.pending| == s.dim;
    var r := AfterUpdateShrink(s, c);
    assert r.pending == s.pending && r.history == s.history + c;
    assert r.funSimplex == [s.funSimplex[0]] + Somes(c);
  }

  lemma UpdateShrinkBest(s: EngineState, c: seq<real>)
    requires Shaped(s) && |c| == s.dim
    requires s.history != [] && s.funSimplex[0] == Some(MinOf(s.history))
    ensures BestKept(AfterUpdateShrink(s, c))
  {
    ShrinkCosts(MinOf(s.history), s.history, c);
    var r := AfterUpdateShrink(s, c);
    assert r.history == s.history + c;
    assert r.funSimplex == [s.funSimplex[0]] + Somes(c);
  }

  lemma UpdateShrinkKeeps(s: EngineState, c: seq<real>)
    requires Inv(s) && s.nextUpdate == Some(UpdateShrink) && |c| == |s.pending|
    ensures Inv(AfterUpdateShrink(s, c))
  {
    UpdateShrinkShape(s, c);
    UpdateShrinkBest(s, c);
  }

  // ---------------------------------------------------------------------
  // The two entry points

  /** `_create_inputs`: run the submit half its phase field names. The
      invariant is kept, the engine then waits for an update half, and
      every submit half but `new_iter` hands over to the one it declares. */
  function Submitted(s: EngineState): (r: EngineState)
    requires Inv(s) && s.nextSubmit.Some?
    ensures Inv(r) && r.nextSubmit == None && r.nextUpdate.Some?
    ensures r.history == s.history
    ensures s.nextSubmit != Some(NewIter) ==> r.nextUpdate == DeclaredUpdate(s.nextSubmit.value)
  {
    match s.nextSubmit.value
    case SubmitInitialize =>
      SubmitInitializeKeeps(s);
      AfterSubmitInitialize(s)
    case NewIter =>
      assert !Initializing(s);
      NewIterKeeps(s);
      AfterNewIter(s)
    case SubmitExpansion =>
      SubmitExpansionKeeps(s);
      AfterSubmitExpansion(s)
    case SubmitContraction =>
      SubmitContractionKeeps(s);
      AfterSubmitContraction(s)
    case SubmitInsideContraction =>
      SubmitInsideContractionKeeps(s);
      AfterSubmitInsideContraction(s)
    case SubmitShrink =>
      SubmitShrinkKeeps(s);
      AfterSubmitShrink(s)
  }

  /** The update halves that consume the cost of one point. */
  predicate SingleUpdate(p: UpdatePhase)
  {
    p == ChooseStep || p == UpdateExpansion || p == UpdateContraction || p == UpdateInsideContraction
  }

  /** `_update` on an update half that consumes one evaluation. */
  function UpdatedOne(s: EngineState, e: Evaluation): (r: EngineState)
    requires Inv(s) && s.nextUpdate.Some? && SingleUpdate(s.nextUpdate.value) && [e.x] == s.pending
    ensures Inv(r) && r.nextUpdate == None
    ensures r.history == s.history + [e.cost]
  {
    assert s.pending[0] == e.x && |e.x| == s.dim;
    match s.nextUpdate.value
    case ChooseStep =>
      ChooseStepKeeps(s, e);
      AfterChooseStep(s, e)
    case UpdateExpansion =>
      UpdateExpansionKeeps(s, e);
      AfterUpdateExpansion(s, e)
    case UpdateContraction =>
      UpdateContractionKeeps(s, e);
      AfterUpdateContraction(s, e)
    case UpdateInsideContraction =>
      UpdateInsideContractionKeeps(s, e);
      AfterUpdateInsideContraction(s, e)
  }

  /** `_update`: run the update half `next_update` names on the costs of
      exactly the points the last submit half handed out. The invariant is
      kept, every cost is recorded, and the engine asks for a further submit
      half exactly when it has not finished. */
  function Updated(s: EngineState, b: Batch): (r: EngineState)
    requires Inv(s) && s.nextUpdate.Some? && Points(b) == s.pending
    ensures Inv(r) && r.nextUpdate == None
    ensures r.history == s.history + Costs(b)
    ensures r.nextSubmit.None? <==> r.finished
  {
    var p := s.nextUpdate.value;
    if p == UpdateInitialize then
      UpdateInitializeKeeps(s, Costs(b));
      AfterUpdateInitialize(s, Costs(b))
    else if p == Finalize then
      assert Costs(b) == [] && s.history + Costs(b) == s.history;
      FinalizeKeeps(s);
      AfterFinalize(s)
    else if p == UpdateShrink then
      UpdateShrinkKeeps(s, Costs(b));
      AfterUpdateShrink(s, Costs(b))
    else
      assert SingleUpdate(p) && |s.pending| == 1;
      SingleParts(b);
      UpdatedOne(s, Single(b))
  }

  /** An update half that consumes one evaluation is handed a batch of
      exactly one. */
  lemma UpdatedBySingle(s: EngineState, b: Batch)
    requires Inv(s) && s.nextUpdate.Some? && SingleUpdate(s.nextUpdate.value) && Points(b) == s.pending
    ensures |b| == 1 && Updated(s, b) == UpdatedOne(s, Single(b)) && |Single(b).x| == s.dim
  {
    var p := s.nextUpdate.value;
    assert p != UpdateInitialize && p != Finalize && p != UpdateShrink;
    SingleParts(b);
    assert s.pending[0] == Single(b).x;
  }

  /** `update_initialize` is handed one cost per vertex, and `_update`
      on it is that phase's step. */
  lemma UpdatedByInitialize(s: EngineState, b: Batch)
    requires Inv(s) && s.nextUpdate == Some(UpdateInitialize) && Points(b) == s.pending
    ensures |Costs(b)| == |s.simplex| && Updated(s, b) == AfterUpdateInitialize(s, Costs(b))
  {
  }

  /** `update_shrink` is handed one cost per non-best vertex, and `_update`
      on it is that phase's step. */
  lemma UpdatedByShrink(s: EngineState, b: Batch)
    requires Inv(s) && s.nextUpdate == Some(UpdateShrink) && Points(b) == s.pending
    ensures |Costs(b)| == s.dim && Updated(s, b) == AfterUpdateShrink(s, Costs(b))
  {
    UpdateShrinkShape(s, Costs(b));
  }

  // ---------------------------------------------------------------------
  // The result

  /** Once the run has finished, the entry the result lookup picks from a
      result mapping that records exactly the costs consumed has the best
      vertex's cost: the assertion in `result_value` cannot fail. */
  lemma FinishedResultIsBest(s: EngineState, m: seq<Entry>)
    requires Inv(s) && s.finished
    requires multiset(EntryCosts(m)) == multiset(s.history)
    ensures OptimalResult(m).Some?
    ensures s.funSimplex[0] == Some(OptimalResult(m).value.cost)
  {
    assert !Initializing(s) && !Expanding(s) && SortedPhase(s);
    BestIsFirst(s);
    MinOfMultiset(s.history, EntryCosts(m));
    var best := OptimalResult(m).value;
    var k :| 0 <= k < |m| && m[k] == best;
    var j := IndexOf(EntryCosts(m), MinOf(EntryCosts(m)));
    assert best.cost <= m[j].cost && m[j].cost <= EntryCosts(m)[k];
  }
}
